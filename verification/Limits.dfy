/**
 Where the assumptions of the main results are needed, and that the conditions are exact: what
 StartContainer does when its container's process is alive, or when a removal of its container was
 cancelled, and what a tracker does whose read and write are apart.
 */
module Limits {
  import opened Records
  import opened Lifecycle
  import opened WellFormedness
  import opened Locality
  import opened CrossMap
  import opened NoLostProcess
  import opened TeardownRetries
  import opened Tracing
  import opened Orphans

  // ---------------------------------------------------------------- a StartContainer that is not the first

  /** StartContainer of cid is at work and has not stored its record yet; it will name another process than this. */
  ghost predicate Starting(s: State, p: string, cid: string, pid: int) {
    p in s.ops && (s.ops[p].StartRead? || (s.ops[p].StartSpawned? && s.ops[p].cnt.pid != pid)) && s.ops[p].cnt.id == cid
  }

  /** The record of cid still names the process, and nothing else does. */
  ghost predicate Losing(s: State, p: string, cid: string, pid: int) {
    Starting(s, p, cid, pid) && Orphan(s, pid, {cid})
  }

  lemma RestartIsLosing(s: State, p: string, cid: string)
    requires WellFormed(s) && CanBegin(s, p, cid) && HasCommand(s.containers[cid]) && s.containers[cid].state != Created
    requires NoneHolds(s.trackers, s.containers[cid].pid)
    ensures Losing(DoBeginStart(s, p, cid), p, cid, s.containers[cid].pid)
  {
    var pid := s.containers[cid].pid;
    assert RecordOk(s, s.containers[cid]);
    forall c | c in s.containers && c != cid ensures s.containers[c].pid != pid {
      assert RecordOk(s, s.containers[c]);
    }
    forall q | q in s.ops ensures !NamedBy(s.ops[q], pid, {cid}) {
      assert OpOk(s, q, s.ops[q]);
    }
  }

  lemma StartingSpares(s: State, step: Step, p: string, cid: string, pid: int)
    requires WellFormed(s) && Starting(s, p, cid, pid) && !step.TrackRead?
    ensures Spares(s, step, {cid})
  {
    assert OpOk(s, p, s.ops[p]) && BelongsTo(s, cid, p);
    match step
    case BeginStop(q, c) => assert CanBegin(s, q, c) ==> RecordOk(s, s.containers[c]);
    case BeginRemove(q, c) => assert CanBegin(s, q, c) ==> RecordOk(s, s.containers[c]);
    case Resume(q) =>
      if q in s.ops && s.ops[q].LoopHead? {
        assert OpOk(s, q, s.ops[q]) && SandboxOk(s, q, s.sandboxes[q]);
        assert s.ops[q].pod.containers != [] ==> s.ops[q].pod.containers[0] in s.sandboxes[q].containers;
      }
    case _ =>
  }

  /** The new record takes the place of the one that named the process. */
  lemma StoredOver(s: State, p: string, cnt: Container, pid: int)
    requires WellFormed(s) && p in s.ops && s.ops[p] == StartSpawned(cnt) && cnt.pid != pid && Orphan(s, pid, {cnt.id})
    ensures Orphan(StoreStarted(s, p, cnt), pid, {})
  {
    assert OpOk(s, p, s.ops[p]);
    forall q | q in s.ops && q != p ensures !NamedBy(s.ops[q], pid, {}) {
      assert OpOk(s, q, s.ops[q]);
    }
  }

  lemma BusyStartIgnores(s: State, step: Step, p: string)
    requires p in s.ops && (s.ops[p].StartRead? || s.ops[p].StartSpawned?) && Actor(step) == Some(p)
    requires !step.Spawn? && !step.SpawnFails? && !step.Resume?
    ensures Apply(s, step) == s
  {
  }

  lemma OwnStepLosing(s: State, step: Step, p: string, cid: string, pid: int)
    requires WellFormed(s) && Losing(s, p, cid, pid) && Actor(step) == Some(p) && step != SpawnFails(p)
    ensures Starting(Apply(s, step), p, cid, pid) || Orphan(Apply(s, step), pid, {})
  {
    match step
    case Spawn(_, other, now) => assert Starting(DoSpawn(s, p, other, now), p, cid, pid);
    case Resume(_) =>
      if s.ops[p].StartSpawned? {
        StoredOver(s, p, s.ops[p].cnt, pid);
        assert DoResume(s, p) == StoreStarted(s, p, s.ops[p].cnt);
      } else {
        assert DoResume(s, p) == s;
      }
    case _ => BusyStartIgnores(s, step, p);
  }

  lemma StepLosing(s: State, step: Step, p: string, cid: string, pid: int)
    requires WellFormed(s) && Losing(s, p, cid, pid) && Whole(step) && step != SpawnFails(p)
    ensures var s' := Apply(s, step);
            (Losing(s', p, cid, pid) || Orphan(s', pid, {})) && s'.procs[pid].killed == s.procs[pid].killed
  {
    StartingSpares(s, step, p, cid, pid);
    StepKeepsOrphan(s, step, pid, {cid});
    if Actor(step) == Some(p) {
      OwnStepLosing(s, step, p, cid, pid);
    } else {
      ForeignStep(s, step, p);
    }
  }

  lemma {:induction false} RunLosing(s: State, steps: seq<Step>, p: string, cid: string, pid: int)
    requires WellFormed(s) && Losing(s, p, cid, pid) && WholeRun(steps) && SpawnFails(p) !in steps
    ensures var s' := Exec(s, steps);
            (Losing(s', p, cid, pid) || Orphan(s', pid, {})) && s'.procs[pid].killed == s.procs[pid].killed
  {
    if steps != [] {
      var init, last := steps[..|steps| - 1], steps[|steps| - 1];
      RunLosing(s, init, p, cid, pid);
      RunKeeps(s, init);
      assert last in steps && Whole(last);
      if Losing(Exec(s, init), p, cid, pid) {
        StepLosing(Exec(s, init), last, p, cid, pid);
      } else {
        StepKeepsOrphan(Exec(s, init), last, pid, {});
      }
    }
  }

  /**
   The condition of LiveProcessesAreOnRecord is exact.  Every StartContainer that violates it, on a
   container whose process is alive, loses that process, whatever happens between its steps, unless the
   spawn fails: until its record is stored no handler signals the process, and from then on, in any
   continuation at all, none ever does and no record names it.
   */
  lemma RestartLosesTheProcess(s: State, p: string, cid: string, during: seq<Step>, s1: State, later: seq<Step>, s': State)
    requires WellFormed(s) && !MayStart(s, BeginStart(p, cid), false) && HasCommand(s.containers[cid])
    requires WholeRun(during) && SpawnFails(p) !in during && Leads(DoBeginStart(s, p, cid), during, s1)
    requires Leads(s1, later, s')
    ensures var lost := s.containers[cid].pid;
            && lost in s1.procs && !s1.procs[lost].killed
            && (Starting(s1, p, cid, lost) || (lost in s'.procs && !s'.procs[lost].killed && !InRecord(s', lost)))
  {
    var lost := s.containers[cid].pid;
    assert RecordOk(s, s.containers[cid]);
    forall t | t in s.trackers && t.Holding? ensures t.record.pid != lost {
      assert TrackerOk(s, t);
    }
    RestartIsLosing(s, p, cid);
    BeginStartKeeps(s, p, cid);
    RunLosing(DoBeginStart(s, p, cid), during, p, cid, lost);
    if !Starting(s1, p, cid, lost) {
      OrphansAreNeverSignalled(s1, later, lost);
    }
  }

  /**
   Trackers of superseded processes never change a record: once a StartContainer that is not the first
   has stored its record, the tracker of the process before it leaves every record alone, in every
   continuation.
   */
  lemma SupersededTrackerIsHarmless(s: State, p: string, cid: string, during: seq<Step>, s1: State, later: seq<Step>, s': State,
                                    of: string, after: State)
    requires WellFormed(s) && NoHolding(s) && CanBegin(s, p, cid) && HasCommand(s.containers[cid]) && s.containers[cid].state != Created
    requires WholeRun(during) && SpawnFails(p) !in during && Leads(DoBeginStart(s, p, cid), during, s1)
    requires Leads(s1, later, s') && !Starting(s1, p, cid, s.containers[cid].pid)
    requires Takes(s', Track(of, s.containers[cid].pid), after)
    ensures after.containers == s'.containers && after.sandboxes == s'.sandboxes
  {
    var pid := s.containers[cid].pid;
    RestartIsLosing(s, p, cid);
    BeginStartKeeps(s, p, cid);
    RunLosing(DoBeginStart(s, p, cid), during, p, cid, pid);
    OrphansAreNeverSignalled(s1, later, pid);
    TakesTrack(s', of, pid);
    assert Apply(s', Track(of, pid)) == DoTrack(s', of, pid);
  }

  // ---------------------------------------------------------------- StartContainer after a cancelled removal

  /** In attempts to tear p down, no handler but StartContainer turns to a container of p that is not on the list. */
  lemma AttemptSpares(s: State, step: Step, p: string, cid: string)
    requires WellFormed(s) && AttemptStep(p, step) && BelongsTo(s, cid, p) && cid !in Remaining(s, p)
    ensures Spares(s, step, {cid})
  {
    match step
    case BeginStop(q, c) => assert CanBegin(s, q, c) ==> RecordOk(s, s.containers[c]);
    case BeginRemove(q, c) => assert CanBegin(s, q, c) ==> RecordOk(s, s.containers[c]);
    case Resume(q) =>
      if q in s.ops && s.ops[q].LoopHead? {
        assert OpOk(s, q, s.ops[q]) && SandboxOk(s, q, s.sandboxes[q]);
        assert s.ops[q].pod.containers != [] ==> s.ops[q].pod.containers[0] in Remaining(s, q);
      }
    case _ =>
  }

  /** The process was not signalled, and nothing names it but cid's record and a StartContainer of cid. */
  ghost predicate Spared(s: State, cid: string, pid: int) {
    Orphan(s, pid, {cid}) && !s.procs[pid].killed
  }

  /** Since s0 no other container of p than cid, which is off the list, has been started. */
  ghost predicate Escaping(s0: State, s: State, p: string, cid: string) {
    && Gone(s, p, cid)
    && (p in s.ops && s.ops[p].StartRead? ==> s.ops[p].cnt.id == cid)
    && (forall pid {:trigger Spared(s, cid, pid)} | pid in s.procs && pid !in s0.procs && s.procs[pid].podID == p :: Spared(s, cid, pid))
  }

  lemma FreshIsSpared(s: State, p: string, cid: string, pid: int, now: int)
    requires WellFormed(s) && NoHolding(s) && p in s.ops && s.ops[p].StartRead? && s.ops[p].cnt.id == cid
    requires pid !in s.procs && pid in DoSpawn(s, p, pid, now).procs
    ensures Spared(DoSpawn(s, p, pid, now), cid, pid)
  {
    forall c | c in s.containers ensures s.containers[c].pid != pid {
      assert RecordOk(s, s.containers[c]);
    }
    forall q | q in s.ops ensures q != p ==> !NamedBy(s.ops[q], pid, {cid}) {
      assert OpOk(s, q, s.ops[q]);
    }
  }

  lemma OnlySpawnSpawns(s: State, step: Step, pid: int)
    requires pid !in s.procs && pid in Apply(s, step).procs
    ensures step.Spawn? && step.pid == pid && step.podID in s.ops && s.ops[step.podID].StartRead?
    ensures Apply(s, step).procs[pid].podID == step.podID
  {
    if !step.Spawn? {
      QuietProcs(s, step);
    }
  }

  lemma QuietProcs(s: State, step: Step)
    requires !step.Spawn?
    ensures Apply(s, step).procs.Keys == s.procs.Keys
  {
    if Begins(step) {
      BeginQuietProcs(s, step);
    } else if Background(step) {
      BackgroundQuietProcs(s, step);
    } else {
      HandlerQuietProcs(s, step);
    }
  }

  lemma BeginQuietProcs(s: State, step: Step)
    requires Begins(step)
    ensures Apply(s, step).procs == s.procs
  {
    match step
    case RunSandbox(sb) => assert DoRunSandbox(s, sb).procs == s.procs;
    case BeginCreate(cnt) => assert DoBeginCreate(s, cnt).procs == s.procs;
    case BeginStart(p, cid) => assert DoBeginStart(s, p, cid).procs == s.procs;
    case BeginTeardown(p, remove) => assert DoBeginTeardown(s, p, remove).procs == s.procs;
    case BeginStop(p, cid) => EndQuietProcs(s, p, cid);
    case BeginRemove(p, cid) => EndQuietProcs(s, p, cid);
  }

  lemma EndQuietProcs(s: State, p: string, cid: string)
    ensures DoBeginStop(s, p, cid).procs == s.procs == DoBeginRemove(s, p, cid).procs
  {
  }

  lemma BackgroundQuietProcs(s: State, step: Step)
    requires Background(step)
    ensures Apply(s, step).procs.Keys == s.procs.Keys
  {
    match step
    case ProcExit(pid, code) => ExitQuietProcs(s, pid, code);
    case Track(cid, pid) => TrackQuietProcs(s, cid, pid);
    case TrackRead(cid, pid) => TrackQuietProcs(s, cid, pid);
    case TrackWrite(t) => TrackWriteQuietProcs(s, t);
  }

  lemma ExitQuietProcs(s: State, pid: int, code: int)
    ensures DoProcExit(s, pid, code).procs.Keys == s.procs.Keys
  {
  }

  lemma TrackQuietProcs(s: State, cid: string, pid: int)
    ensures DoTrack(s, cid, pid).procs == s.procs == DoTrackRead(s, cid, pid).procs
  {
  }

  lemma TrackWriteQuietProcs(s: State, t: Tracker)
    ensures DoTrackWrite(s, t).procs == s.procs
  {
  }

  lemma HandlerQuietProcs(s: State, step: Step)
    requires !Begins(step) && !Background(step) && !step.Spawn?
    ensures Apply(s, step).procs.Keys == s.procs.Keys
  {
    match step
    case SpawnFails(p) => assert DoSpawnFails(s, p).procs == s.procs;
    case Abandon(p) => assert DoAbandon(s, p).procs == s.procs;
    case Signal(p, delivered) => WaitQuietProcs(s, p, delivered);
    case Tick(p) => WaitQuietProcs(s, p, true);
    case Timeout(p) => WaitQuietProcs(s, p, true);
    case Cancel(p) => WaitQuietProcs(s, p, true);
    case Resume(p) => ResumeQuietProcs(s, p);
  }

  lemma WaitQuietProcs(s: State, p: string, delivered: bool)
    ensures DoSignal(s, p, delivered).procs.Keys == s.procs.Keys == DoTick(s, p).procs.Keys
    ensures DoTimeout(s, p).procs.Keys == s.procs.Keys == DoCancel(s, p).procs.Keys
  {
    if p in s.ops && (s.ops[p].Signalling? || s.ops[p].Polling?) {
      assert Kill(s, s.ops[p].cnt.pid).procs.Keys == s.procs.Keys;
    }
  }

  lemma ResumeQuietProcs(s: State, p: string)
    ensures DoResume(s, p).procs == s.procs
  {
  }

  /** In attempts to tear p down no StartContainer begins on p. */
  lemma NoOtherStart(s: State, step: Step, p: string, cid: string)
    requires WellFormed(s) && AttemptStep(p, step) && (p in s.ops && s.ops[p].StartRead? ==> s.ops[p].cnt.id == cid)
    ensures var s' := Apply(s, step); p in s'.ops && s'.ops[p].StartRead? ==> s'.ops[p].cnt.id == cid
  {
    if Actor(step) != Some(p) {
      ForeignStep(s, step, p);
    } else {
      OwnStepStartsNothing(s, step, p);
    }
  }

  /** The handler of p is not in a StartContainer that it was not in before. */
  ghost predicate NoNewStart(s: State, s': State, p: string) {
    p in s'.ops && s'.ops[p].StartRead? ==> p in s.ops && s'.ops[p] == s.ops[p]
  }

  lemma OwnStepStartsNothing(s: State, step: Step, p: string)
    requires Actor(step) == Some(p) && (Begins(step) ==> step.BeginTeardown?)
    ensures NoNewStart(s, Apply(s, step), p)
  {
    match step
    case Resume(_) => ResumeStartsNothing(s, p);
    case BeginTeardown(_, remove) => assert NoNewStart(s, DoBeginTeardown(s, p, remove), p);
    case Spawn(_, pid, now) => assert NoNewStart(s, DoSpawn(s, p, pid, now), p);
    case SpawnFails(_) => assert NoNewStart(s, DoSpawnFails(s, p), p);
    case Abandon(_) => assert NoNewStart(s, DoAbandon(s, p), p);
    case Signal(_, delivered) => WaitStartsNothing(s, p, delivered);
    case _ => WaitStartsNothing(s, p, true);
  }

  lemma WaitStartsNothing(s: State, p: string, delivered: bool)
    ensures NoNewStart(s, DoSignal(s, p, delivered), p) && NoNewStart(s, DoTick(s, p), p)
    ensures NoNewStart(s, DoTimeout(s, p), p) && NoNewStart(s, DoCancel(s, p), p)
  {
  }

  lemma ResumeStartsNothing(s: State, p: string)
    ensures NoNewStart(s, DoResume(s, p), p)
  {
    if p in s.ops && s.ops[p].LoopHead? {
      NextStartsNothing(s, p, s.ops[p].pod, s.ops[p].remove);
    }
  }

  lemma NextStartsNothing(s: State, p: string, pod: Sandbox, remove: bool)
    requires p in s.ops && s.ops[p].LoopHead?
    ensures NoNewStart(s, NextInLoop(s, p, pod, remove), p)
  {
  }

  lemma StepEscaping(s0: State, s: State, step: Step, p: string, cid: string)
    requires WellFormed(s) && NoHolding(s) && Escaping(s0, s, p, cid) && AttemptStep(p, step)
    ensures Escaping(s0, Apply(s, step), p, cid)
  {
    var s' := Apply(s, step);
    StepLocal(s, step);
    StepKeepsGone(s, step, p, cid);
    NoOtherStart(s, step, p, cid);
    AttemptSpares(s, step, p, cid);
    forall pid | pid in s'.procs && pid !in s0.procs && s'.procs[pid].podID == p ensures Spared(s', cid, pid) {
      if pid in s.procs {
        assert Spared(s, cid, pid);
        StepKeepsOrphan(s, step, pid, {cid});
      } else {
        OnlySpawnSpawns(s, step, pid);
        FreshIsSpared(s, p, cid, pid, step.now);
      }
    }
  }

  lemma {:induction false} RunEscaping(s0: State, s: State, steps: seq<Step>, p: string, cid: string)
    requires WellFormed(s) && NoHolding(s) && Escaping(s0, s, p, cid) && Attempts(p, steps)
    ensures Escaping(s0, Exec(s, steps), p, cid)
  {
    if steps != [] {
      var init, last := steps[..|steps| - 1], steps[|steps| - 1];
      RunEscaping(s0, s, init, p, cid);
      RunKeeps(s, init);
      assert forall i | 0 <= i < |init| :: AttemptStep(p, init[i]);
      HoldsNothing(s, init);
      StepEscaping(s0, Exec(s, init), last, p, cid);
    }
  }

  lemma StartIsEscaping(s: State, p: string, cid: string)
    requires WellFormed(s) && NoHolding(s) && CanBegin(s, p, cid) && Gone(s, p, cid)
    ensures var s1 := DoBeginStart(s, p, cid); NoHolding(s1) && Escaping(s, s1, p, cid)
  {
    assert RecordOk(s, s.containers[cid]);
    var s1 := DoBeginStart(s, p, cid);
    assert s1.procs == s.procs && s1.sandboxes == s.sandboxes && s1.trackers == s.trackers;
  }

  /**
   A container that is stored but off its pod's list escapes every teardown of the pod once it is started:
   whatever happens between the steps of that StartContainer and afterwards, however often a teardown is
   attempted, or completed, no process spawned for the pod since is sent SIGKILL.
   */
  lemma UnlistedEscapesTeardown(s: State, p: string, cid: string, steps: seq<Step>, s': State, pid: int)
    requires WellFormed(s) && NoHolding(s) && CanBegin(s, p, cid) && Gone(s, p, cid)
    requires Attempts(p, steps) && Leads(DoBeginStart(s, p, cid), steps, s')
    requires pid in s'.procs && pid !in s.procs && s'.procs[pid].podID == p
    ensures !s'.procs[pid].killed
  {
    var s1 := DoBeginStart(s, p, cid);
    StartIsEscaping(s, p, cid);
    BeginStartKeeps(s, p, cid);
    RunEscaping(s, s1, steps, p, cid);
    assert Spared(s', cid, pid);
  }

  /**
   So the second condition of TeardownIsComplete is exact, too: it is violated only by a StartContainer of
   a container whose RemoveContainer was cancelled, and every such start escapes the teardown.
   */
  lemma RestartEscapesTeardown(before: seq<Step>, s: State, p: string, cid: string, steps: seq<Step>, s': State, pid: int)
    requires Reached(before, s) && WholeRun(before)
    requires MayStart(s, BeginStart(p, cid), false) && !MayStart(s, BeginStart(p, cid), true)
    requires Attempts(p, steps) && Leads(DoBeginStart(s, p, cid), steps, s')
    requires pid in s'.procs && pid !in s.procs && s'.procs[pid].podID == p
    ensures !s'.procs[pid].killed
  {
    ReachedIs(before, s);
    EmptyIntegrity();
    RunIntegrity(INIT, before);
    RunKeepsCancelledGone(before);
    assert RecordOk(s, s.containers[cid]);
    UnlistedEscapesTeardown(s, p, cid, steps, s', pid);
  }

  // ---------------------------------------------------------------- a tracker whose read and write are apart

  /**
   A record that is deleted between a tracker's read and its write comes back with that write, and in no
   continuation does a list name it: no teardown will ever delete it again.
   */
  lemma LateTrackerRevivesRecord(s: State, t: Tracker, s1: State, later: seq<Step>, s': State, q: string)
    requires WellFormed(s) && t in s.trackers && t.Holding? && t.cid !in s.containers && Gone(s, t.record.podID, t.cid)
    requires Takes(s, TrackWrite(t), s1) && Leads(s1, later, s')
    ensures t.cid in s1.containers && s1.containers[t.cid].state == Exited && s1.containers[t.cid].podID == t.record.podID
    ensures !Listed(s', q, t.cid)
  {
    assert TrackerOk(s, t);
    assert Apply(s, TrackWrite(t)) == s1;
    TrackWriteKeeps(s, t);
    StepKeepsGone(s, TrackWrite(t), t.record.podID, t.cid);
    RunKeepsGone(s1, later, t.record.podID, t.cid);
    RunKeeps(s1, later);
    if q in s'.sandboxes {
      assert SandboxOk(s', q, s'.sandboxes[q]);
    }
  }
}
