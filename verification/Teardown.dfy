/**
 StopPodSandbox and RemovePodSandbox tear a pod down over any number of attempts, each of which may be
 cancelled, or cut off between two writes, at any point.
 */
module TeardownRetries {
  import opened Records
  import opened Lifecycle
  import opened WellFormedness
  import opened Locality
  import opened CrossMap
  import opened Sequences
  import opened Tracing

  /**
   In an attempt run the only handlers that begin on p are teardowns; handlers of other pods, trackers
   and process exits interleave as they like.
   */
  predicate AttemptStep(p: string, step: Step) {
    && !step.TrackRead? && !step.TrackWrite?
    && (Actor(step) == Some(p) && Begins(step) ==> step.BeginTeardown?)
  }

  predicate Attempts(p: string, steps: seq<Step>) {
    forall i | 0 <= i < |steps| :: AttemptStep(p, steps[i])
  }

  function Remaining(s: State, p: string): seq<string> {
    if p in s.sandboxes then s.sandboxes[p].containers else []
  }

  function Own(s: State, p: string): set<string> {
    set c | c in s.containers && s.containers[c].podID == p
  }

  /** At most a teardown is at work on p, and the head it is about to unlist is deleted. */
  ghost predicate TeardownAtWork(s: State, p: string) {
    p in s.ops ==>
      && IsTeardown(s.ops[p])
      && (s.ops[p].Unlisting? && Remaining(s, p) != [] ==> Remaining(s, p)[0] !in Own(s, p))
  }

  /** The stored list is a suffix of the original one, and the record is otherwise as it was until it becomes NOTREADY. */
  ghost predicate RecordProgress(s0: State, s: State, p: string)
    requires p in s0.sandboxes
  {
    var first, rest := s0.sandboxes[p].containers, Remaining(s, p);
    && |rest| <= |first| && rest == first[|first| - |rest|..]
    && (p in s.sandboxes ==>
          && s.sandboxes[p] == s0.sandboxes[p].(containers := rest, state := s.sandboxes[p].state)
          && (s.sandboxes[p].state == s0.sandboxes[p].state || (s.sandboxes[p].state == NotReady && rest == [])))
  }

  /** What is stored of the pod is what was, without the dropped prefix and, at most, the head of the suffix. */
  ghost predicate DeletionProgress(s0: State, s: State, p: string)
    requires p in s0.sandboxes && |Remaining(s, p)| <= |s0.sandboxes[p].containers|
  {
    var first, rest := s0.sandboxes[p].containers, Remaining(s, p);
    var kept := Own(s0, p) - Elements(first[..|first| - |rest|]);
    Own(s, p) == kept || (rest != [] && Own(s, p) == kept - {rest[0]})
  }

  ghost predicate Progress(s0: State, s: State, p: string)
    requires p in s0.sandboxes
  {
    TeardownAtWork(s, p) && RecordProgress(s0, s, p) && DeletionProgress(s0, s, p)
  }

  // ---------------------------------------------------------------- one step

  /** What counts for the progress of p. */
  ghost predicate SameView(s: State, s': State, p: string) {
    && (p in s'.sandboxes <==> p in s.sandboxes) && (p in s.sandboxes ==> s'.sandboxes[p] == s.sandboxes[p])
    && (p in s'.ops <==> p in s.ops) && (p in s.ops ==> s'.ops[p] == s.ops[p])
    && Own(s', p) == Own(s, p)
  }

  lemma FrameProgress(s0: State, s: State, s': State, p: string)
    requires p in s0.sandboxes && Progress(s0, s, p) && SameView(s, s', p)
    ensures Progress(s0, s', p)
  {
  }

  lemma OtherStepSameView(s: State, step: Step, p: string)
    requires WellFormed(s) && NoHolding(s) && Actor(step) != Some(p) && !step.TrackRead? && !step.TrackWrite?
    ensures SameView(s, Apply(s, step), p)
  {
    StepLocal(s, step);
    var s' := Apply(s, step);
    if About(s, step) != p {
      assert forall c | c in Own(s, p) :: c in Own(s', p);
      assert forall c | c in Own(s', p) :: c in Own(s, p);
    } else {
      BackgroundSameView(s, step, p);
    }
  }

  /**
   Apart from tracker writes, which change no list and store or delete no record, a pod on which no handler
   takes a step is as it was, whatever the handlers of other pods do: its sandbox, its handler and the set
   of its stored containers.
   */
  lemma {:induction false} OthersKeepView(s: State, steps: seq<Step>, s': State, p: string)
    requires WellFormed(s) && NoHolding(s) && Leads(s, steps, s')
    requires forall step | step in steps :: Actor(step) != Some(p) && !step.TrackRead? && !step.TrackWrite?
    ensures SameView(s, s', p)
  {
    if steps == [] {
      assert Exec(s, steps) == s;
    } else {
      var init, last := steps[..|steps| - 1], steps[|steps| - 1];
      var t := Exec(s, init);
      LeadsIs(s, init, t);
      OthersKeepView(s, init, t, p);
      RunKeeps(s, init);
      HoldsNothing(s, init);
      assert last in steps;
      OtherStepSameView(t, last, p);
      assert s' == Apply(t, last) by { assert s' == Exec(s, steps); }
    }
  }

  /** The record is the given one, or that one made EXITED with the exit code of its process. */
  ghost predicate SameOrExited(s: State, cnt: Container) {
    cnt.id in s.containers &&
    var now := s.containers[cnt.id];
    now == cnt || (now == cnt.(state := Exited, exitCode := now.exitCode) && cnt.pid in s.procs && s.procs[cnt.pid].exit == Some(now.exitCode))
  }

  lemma TrackKeepsRecord(s: State, cid: string, pid: int, cnt: Container)
    requires SameOrExited(s, cnt)
    ensures SameOrExited(DoTrack(s, cid, pid), cnt)
  {
  }

  lemma ExitKeepsRecord(s: State, pid: int, code: int, cnt: Container)
    requires SameOrExited(s, cnt)
    ensures SameOrExited(DoProcExit(s, pid, code), cnt)
  {
  }

  lemma UntouchedRecord(s: State, s': State, cnt: Container)
    requires Untouched(s, s', cnt.podID) && Grows(s, s') && SameOrExited(s, cnt)
    ensures SameOrExited(s', cnt)
  {
    assert s.containers[cnt.id].podID == cnt.podID;
  }

  lemma OtherHandlerKeepsRecord(s: State, step: Step, cnt: Container)
    requires WellFormed(s) && SameOrExited(s, cnt) && Actor(step) != Some(cnt.podID) && !Background(step)
    ensures SameOrExited(Apply(s, step), cnt)
  {
    StepLocal(s, step);
    StepUntouched(s, step, cnt.podID);
    UntouchedRecord(s, Apply(s, step), cnt);
  }

  lemma BackgroundKeepsRecord(s: State, step: Step, cnt: Container)
    requires SameOrExited(s, cnt) && (step.Track? || step.ProcExit?)
    ensures SameOrExited(Apply(s, step), cnt)
  {
    if step.Track? {
      TrackKeepsRecord(s, step.cid, step.pid, cnt);
      assert Apply(s, step) == DoTrack(s, step.cid, step.pid);
    } else {
      ExitKeepsRecord(s, step.pid, step.code, cnt);
      assert Apply(s, step) == DoProcExit(s, step.pid, step.code);
    }
  }

  lemma OtherStepKeepsRecord(s: State, step: Step, s': State, cnt: Container)
    requires WellFormed(s) && SameOrExited(s, cnt) && Actor(step) != Some(cnt.podID) && !step.TrackRead? && !step.TrackWrite?
    requires s' == Apply(s, step)
    ensures SameOrExited(s', cnt)
  {
    if Background(step) {
      BackgroundKeepsRecord(s, step, cnt);
    } else {
      OtherHandlerKeepsRecord(s, step, cnt);
    }
  }

  /** Apart from its tracker's write no one but the handler of its pod changes a record. */
  lemma {:induction false} OthersKeepRecord(s: State, steps: seq<Step>, s': State, cnt: Container)
    requires WellFormed(s) && Leads(s, steps, s') && SameOrExited(s, cnt)
    requires forall step | step in steps :: Actor(step) != Some(cnt.podID) && !step.TrackRead? && !step.TrackWrite?
    ensures SameOrExited(s', cnt)
  {
    if steps == [] {
      assert Exec(s, steps) == s;
    } else {
      var init, last := steps[..|steps| - 1], steps[|steps| - 1];
      var t := Exec(s, init);
      LeadsIs(s, init, t);
      OthersKeepRecord(s, init, t, cnt);
      RunKeeps(s, init);
      assert last in steps;
      assert s' == Apply(t, last) by { assert s' == Exec(s, steps); }
      OtherStepKeepsRecord(t, last, s', cnt);
    }
  }

  lemma {:induction false} HoldsNothing(s: State, steps: seq<Step>)
    requires NoHolding(s) && forall step | step in steps :: !step.TrackRead? && !step.TrackWrite?
    ensures NoHolding(Exec(s, steps))
  {
    if steps != [] {
      var init, last := steps[..|steps| - 1], steps[|steps| - 1];
      HoldsNothing(s, init);
      assert last in steps;
      NoHoldingKeeps(Exec(s, init), last);
    }
  }

  lemma BackgroundSameView(s: State, step: Step, p: string)
    requires step.ProcExit? || step.Track?
    ensures SameView(s, Apply(s, step), p)
  {
    if step.Track? {
      TrackSameOwn(s, step.cid, step.pid, p);
    } else {
      assert Own(Apply(s, step), p) == Own(s, p);
    }
  }

  lemma TrackSameOwn(s: State, cid: string, pid: int, p: string)
    ensures Own(DoTrack(s, cid, pid), p) == Own(s, p)
  {
    var s' := DoTrack(s, cid, pid);
    forall c ensures c in Own(s', p) <==> c in Own(s, p) {
    }
  }

  /** The handler moves on, or stops, between two writes. */
  lemma MoveProgress(s0: State, s: State, p: string, op: Op)
    requires p in s0.sandboxes && Progress(s0, s, p) && IsTeardown(op)
    requires op.Unlisting? && Remaining(s, p) != [] ==> Remaining(s, p)[0] !in Own(s, p)
    ensures Progress(s0, s.(ops := s.ops[p := op]), p)
    ensures Progress(s0, s.(ops := s.ops - {p}), p)
  {
    var s1, s2 := s.(ops := s.ops[p := op]), s.(ops := s.ops - {p});
    assert Own(s1, p) == Own(s, p) && Own(s2, p) == Own(s, p);
  }

  lemma KillProgress(s0: State, s: State, p: string, pid: int)
    requires p in s0.sandboxes && Progress(s0, s, p)
    ensures Progress(s0, Kill(s, pid), p)
  {
    FrameProgress(s0, s, Kill(s, pid), p);
  }

  lemma EnterTerminateProgress(s0: State, s: State, p: string, caller: Caller, cnt: Container)
    requires p in s0.sandboxes && Progress(s0, s, p) && caller.TeardownCaller?
    ensures Progress(s0, EnterTerminate(s, p, caller, cnt), p)
  {
    MoveProgress(s0, s, p, Signalling(caller, cnt));
    MoveProgress(s0, s, p, Terminated(caller, cnt.id));
  }

  lemma LeaveTerminateProgress(s0: State, s: State, p: string, caller: Caller, cid: string)
    requires p in s0.sandboxes && Progress(s0, s, p) && caller.TeardownCaller?
    ensures Progress(s0, AfterTerminate(s, p, caller, cid), p)
    ensures Progress(s0, Fail(s, p, caller, cid), p)
  {
    MoveProgress(s0, s, p, Terminated(caller, cid));
  }

  lemma WaitProgress(s0: State, s: State, p: string, delivered: bool)
    requires p in s0.sandboxes && Progress(s0, s, p)
    ensures Progress(s0, DoSignal(s, p, delivered), p) && Progress(s0, DoTick(s, p), p)
    ensures Progress(s0, DoTimeout(s, p), p) && Progress(s0, DoCancel(s, p), p)
  {
    if p in s.ops && (s.ops[p].Signalling? || s.ops[p].Polling?) {
      var caller, cnt := s.ops[p].caller, s.ops[p].cnt;
      MoveProgress(s0, s, p, Polling(caller, cnt));
      LeaveTerminateProgress(s0, s, p, caller, cnt.id);
      KillProgress(s0, s, p, cnt.pid);
      LeaveTerminateProgress(s0, Kill(s, cnt.pid), p, caller, cnt.id);
    }
  }

  lemma DeleteProgress(s0: State, s: State, p: string, caller: Caller, cid: string)
    requires p in s0.sandboxes && Progress(s0, s, p) && caller.TeardownCaller? && CallerOk(s, p, caller, cid)
    ensures Progress(s0, DeleteTerminated(s, p, caller, cid), p)
  {
    var s' := DeleteTerminated(s, p, caller, cid);
    assert Own(s', p) == Own(s, p) - {cid};
    assert Remaining(s', p)[0] == cid;
  }

  lemma ShortenProgress(s0: State, s: State, p: string, pod: Sandbox, remove: bool)
    requires p in s0.sandboxes && Progress(s0, s, p) && InSync(s, p, pod)
    requires p in s.ops && s.ops[p] == Unlisting(pod, remove)
    ensures Progress(s0, StoreShorterList(s, p, pod, remove), p)
  {
    if pod.containers != [] {
      var s' := StoreShorterList(s, p, pod, remove);
      var first, rest, rest' := s0.sandboxes[p].containers, pod.containers, Remaining(s', p);
      assert Own(s', p) == Own(s, p);
      assert rest' == first[|first| - |rest'|..];
      assert first[|first| - |rest|] == rest[0];
      assert first[..|first| - |rest'|] == first[..|first| - |rest|] + [rest[0]];
      assert Elements(first[..|first| - |rest'|]) == Elements(first[..|first| - |rest|]) + {rest[0]};
    }
  }

  lemma NextProgress(s0: State, s: State, p: string, pod: Sandbox, remove: bool)
    requires p in s0.sandboxes && Progress(s0, s, p) && InSync(s, p, pod)
    ensures Progress(s0, NextInLoop(s, p, pod, remove), p)
  {
    if pod.containers == [] {
      var s' := NextInLoop(s, p, pod, remove);
      assert Own(s', p) == Own(s, p);
    } else if pod.containers[0] !in s.containers {
      MoveProgress(s0, s, p, Unlisting(pod, remove));
    } else {
      EnterTerminateProgress(s0, s, p, TeardownCaller(pod, remove), s.containers[pod.containers[0]]);
    }
  }

  lemma EmptiedProgress(s0: State, s: State, p: string)
    requires p in s0.sandboxes && Progress(s0, s, p) && p in s.sandboxes && s.sandboxes[p].containers == []
    ensures Progress(s0, DeleteEmptied(s, p), p)
  {
    assert Own(DeleteEmptied(s, p), p) == Own(s, p);
  }

  lemma ResumeProgress(s0: State, s: State, p: string)
    requires WellFormed(s) && p in s0.sandboxes && Progress(s0, s, p)
    ensures Progress(s0, DoResume(s, p), p)
  {
    if p in s.ops {
      assert OpOk(s, p, s.ops[p]);
      assert s.ops[p].Emptied? ==> SandboxOk(s, p, s.sandboxes[p]);
      WorkProgress(s0, s, p);
    }
  }

  lemma WorkProgress(s0: State, s: State, p: string)
    requires p in s0.sandboxes && Progress(s0, s, p) && p in s.ops && OpOk(s, p, s.ops[p])
    requires s.ops[p].Emptied? ==> s.sandboxes[p].containers == []
    ensures Progress(s0, DoResume(s, p), p)
  {
    match s.ops[p]
    case Terminated(caller, cid) => DeleteProgress(s0, s, p, caller, cid);
    case Emptied => EmptiedProgress(s0, s, p);
    case _ => ListProgress(s0, s, p);
  }

  lemma ListProgress(s0: State, s: State, p: string)
    requires p in s0.sandboxes && Progress(s0, s, p) && p in s.ops && OpOk(s, p, s.ops[p])
    requires var op := s.ops[p]; op.LoopHead? || op.Unlisting? || op.Signalling? || op.Polling?
    ensures Progress(s0, DoResume(s, p), p)
  {
    var op := s.ops[p];
    if op.LoopHead? {
      NextProgress(s0, s, p, op.pod, op.remove);
      assert DoResume(s, p) == NextInLoop(s, p, op.pod, op.remove);
    } else if op.Unlisting? {
      ShortenProgress(s0, s, p, op.pod, op.remove);
      assert DoResume(s, p) == StoreShorterList(s, p, op.pod, op.remove);
    } else {
      assert DoResume(s, p) == s;
    }
  }

  lemma BeginProgress(s0: State, s: State, p: string, remove: bool)
    requires p in s0.sandboxes && Progress(s0, s, p)
    ensures Progress(s0, DoBeginTeardown(s, p, remove), p) && Progress(s0, DoAbandon(s, p), p)
  {
    MoveProgress(s0, s, p, LoopHead(s0.sandboxes[p], remove));
    if p in s.sandboxes {
      MoveProgress(s0, s, p, LoopHead(s.sandboxes[p], remove));
    }
  }

  lemma StepProgress(s0: State, s: State, step: Step, p: string)
    requires WellFormed(s) && NoHolding(s) && p in s0.sandboxes && Progress(s0, s, p) && AttemptStep(p, step)
    ensures Progress(s0, Apply(s, step), p)
  {
    if Actor(step) != Some(p) {
      OtherStepSameView(s, step, p);
      FrameProgress(s0, s, Apply(s, step), p);
    } else {
      match step
      case BeginTeardown(_, remove) => BeginProgress(s0, s, p, remove);
      case Abandon(_) => BeginProgress(s0, s, p, false);
      case Signal(_, delivered) => WaitProgress(s0, s, p, delivered);
      case Tick(_) => WaitProgress(s0, s, p, false);
      case Timeout(_) => WaitProgress(s0, s, p, false);
      case Cancel(_) => WaitProgress(s0, s, p, false);
      case Resume(_) => ResumeProgress(s0, s, p);
      case Spawn(_, _, _) =>
      case SpawnFails(_) =>
    }
  }

  // ---------------------------------------------------------------- all attempt runs

  /**
   The persisted progress of the teardown loop, after every single step of every attempt run: the
   stored list is a suffix of the original, what is deleted of the pod is the dropped prefix and at
   most the suffix's head, and the record is otherwise untouched until it turns NOTREADY, empty.
   */
  lemma {:induction false} AttemptsProgress(s0: State, steps: seq<Step>, p: string)
    requires WellFormed(s0) && NoHolding(s0) && p in s0.sandboxes && TeardownAtWork(s0, p) && Attempts(p, steps)
    ensures var s := Exec(s0, steps); WellFormed(s) && NoHolding(s) && Progress(s0, s, p)
  {
    if steps == [] {
      var first := s0.sandboxes[p].containers;
      assert first[..0] == [] && Elements(first[..0]) == {};
    } else {
      var init, last := steps[..|steps| - 1], steps[|steps| - 1];
      AttemptsProgress(s0, init, p);
      StepKeeps(Exec(s0, init), last);
      NoHoldingKeeps(Exec(s0, init), last);
      StepProgress(s0, Exec(s0, init), last, p);
    }
  }

  ghost predicate Finished(s: State, p: string) {
    p !in s.ops && (p in s.sandboxes ==> s.sandboxes[p].state == NotReady)
  }

  /** A completed teardown has deleted exactly the containers that were on the list when it all began. */
  lemma FinishedTeardown(s0: State, steps: seq<Step>, s: State, p: string)
    requires WellFormed(s0) && NoHolding(s0) && p in s0.sandboxes && TeardownAtWork(s0, p)
    requires Leads(s0, steps, s) && Attempts(p, steps) && Finished(s, p)
    ensures Own(s, p) == Own(s0, p) - Elements(s0.sandboxes[p].containers)
    ensures p in s.sandboxes ==> s.sandboxes[p] == s0.sandboxes[p].(containers := [], state := NotReady)
  {
    AttemptsProgress(s0, steps, p);
    var first := s0.sandboxes[p].containers;
    if p in s.sandboxes {
      assert SandboxOk(s, p, s.sandboxes[p]);
    }
    assert first[..|first|] == first;
  }

  /**
   Retry confluence: any two ways to tear a pod down, with whatever cancelled or cut-off attempts
   before the one that completes, end with the same containers deleted and the same sandbox record.
   */
  lemma RetryConfluence(s0: State, one: seq<Step>, a: State, other: seq<Step>, b: State, p: string)
    requires WellFormed(s0) && NoHolding(s0) && p in s0.sandboxes && TeardownAtWork(s0, p)
    requires Leads(s0, one, a) && Attempts(p, one) && Finished(a, p)
    requires Leads(s0, other, b) && Attempts(p, other) && Finished(b, p)
    ensures Own(a, p) == Own(b, p)
    ensures p in a.sandboxes && p in b.sandboxes ==> a.sandboxes[p] == b.sandboxes[p]
  {
    FinishedTeardown(s0, one, a, p);
    FinishedTeardown(s0, other, b, p);
  }

  // ---------------------------------------------------------------- what StopPodSandbox alone does

  predicate Removes(op: Op) {
    || op.Emptied?
    || ((op.LoopHead? || op.Unlisting?) && op.remove)
    || ((op.Signalling? || op.Polling? || op.Terminated?) && op.caller.TeardownCaller? && op.caller.remove)
  }

  /** StopPodSandbox never deletes the sandbox itself. */
  lemma {:induction false} StopKeepsSandbox(s0: State, steps: seq<Step>, p: string)
    requires WellFormed(s0) && NoHolding(s0) && p in s0.sandboxes && p !in s0.ops && Attempts(p, steps)
    requires forall i | 0 <= i < |steps| :: steps[i] != BeginTeardown(p, true)
    ensures var s := Exec(s0, steps); p in s.sandboxes && (p in s.ops ==> !Removes(s.ops[p]))
  {
    if steps != [] {
      var init, last := steps[..|steps| - 1], steps[|steps| - 1];
      StopKeepsSandbox(s0, init, p);
      AttemptsProgress(s0, init, p);
      var s := Exec(s0, init);
      if Actor(last) != Some(p) {
        OtherStepSameView(s, last, p);
      } else {
        StopStep(s, last, p);
      }
    }
  }

  lemma StopStep(s: State, step: Step, p: string)
    requires p in s.sandboxes && (p in s.ops ==> IsTeardown(s.ops[p]) && !Removes(s.ops[p]))
    requires AttemptStep(p, step) && Actor(step) == Some(p) && step != BeginTeardown(p, true)
    ensures var s' := Apply(s, step); p in s'.sandboxes && (p in s'.ops ==> !Removes(s'.ops[p]))
  {
    match step
    case Resume(_) => StopResume(s, p);
    case _ =>
  }

  lemma StopResume(s: State, p: string)
    requires p in s.sandboxes && (p in s.ops ==> IsTeardown(s.ops[p]) && !Removes(s.ops[p]))
    ensures var s' := DoResume(s, p); p in s'.sandboxes && (p in s'.ops ==> !Removes(s'.ops[p]))
  {
    if p in s.ops {
      match s.ops[p]
      case LoopHead(pod, remove) => StopNext(s, p, pod);
      case _ =>
    }
  }

  lemma StopNext(s: State, p: string, pod: Sandbox)
    requires p in s.sandboxes
    ensures var s' := NextInLoop(s, p, pod, false); p in s'.sandboxes && (p in s'.ops ==> !Removes(s'.ops[p]))
  {
  }

  /**
   Any number of cancelled StopPodSandbox calls before one that completes leave the very record that a
   single uninterrupted call leaves, and delete the very same containers.
   */
  lemma StopRetries(s0: State, steps: seq<Step>, s: State, p: string)
    requires WellFormed(s0) && NoHolding(s0) && p in s0.sandboxes && p !in s0.ops
    requires Leads(s0, steps, s) && Attempts(p, steps) && Finished(s, p)
    requires forall i | 0 <= i < |steps| :: steps[i] != BeginTeardown(p, true)
    ensures p in s.sandboxes && s.sandboxes[p] == s0.sandboxes[p].(containers := [], state := NotReady)
    ensures Own(s, p) == Own(s0, p) - Elements(s0.sandboxes[p].containers)
  {
    StopKeepsSandbox(s0, steps, p);
    FinishedTeardown(s0, steps, s, p);
  }

  // ---------------------------------------------------------------- an attempt can always finish

  lemma LastStep(from: State, steps: seq<Step>, to: State) returns (s: State)
    requires steps != [] && Leads(from, steps, to)
    ensures Leads(from, steps[..|steps| - 1], s) && Takes(s, steps[|steps| - 1], to)
  {
    s := Exec(from, steps[..|steps| - 1]);
    assert Exec(from, steps) == to;
  }

  lemma {:induction false} LeadsAppend(from: State, a: seq<Step>, middle: State, b: seq<Step>, to: State)
    requires Leads(from, a, middle) && Leads(middle, b, to)
    ensures Leads(from, a + b, to)
  {
    if b == [] {
      assert a + b == a;
      assert Exec(middle, b) == to;
    } else {
      var init := b[..|b| - 1];
      var s := LastStep(middle, b, to);
      LeadsAppend(from, a, middle, init, s);
      LeadsNext(from, a + init, s, b[|b| - 1], to);
      assert a + init + [b[|b| - 1]] == a + b;
    }
  }

  lemma ExecAppend(s: State, a: seq<Step>, b: seq<Step>)
    ensures Exec(s, a + b) == Exec(Exec(s, a), b)
  {
    var middle := Exec(s, a);
    var to := Exec(middle, b);
    LeadsIs(s, a, middle);
    LeadsIs(middle, b, to);
    LeadsAppend(s, a, middle, b, to);
    LeadsIs(s, a + b, to);
  }

  lemma ExecTwo(s: State, first: Step, second: Step)
    ensures Exec(s, [first]) == Apply(s, first)
    ensures Exec(s, [first, second]) == Apply(Apply(s, first), second)
  {
    assert [first, second][..1] == [first];
    assert [first][..0] == [];
  }

  ghost predicate Uncancelled(p: string, steps: seq<Step>) {
    forall i | 0 <= i < |steps| :: Actor(steps[i]) == Some(p) && !steps[i].Cancel? && !steps[i].Abandon? && !Begins(steps[i])
  }

  /** terminateContainer has returned, or was not needed. */
  ghost predicate PastWait(s: State, p: string, pod: Sandbox, remove: bool) {
    p in s.ops &&
    (s.ops[p] == Unlisting(pod, remove) || (s.ops[p].Terminated? && s.ops[p].caller == TeardownCaller(pod, remove)))
  }

  ghost predicate AtWait(s: State, p: string, pod: Sandbox, remove: bool) {
    p in s.ops && s.ops[p].Signalling? && s.ops[p].caller == TeardownCaller(pod, remove)
  }

  lemma NextPass(s: State, p: string, pod: Sandbox, remove: bool)
    requires pod.containers != []
    requires pod.containers[0] in s.containers ==>
               s.containers[pod.containers[0]].state == Running ==> s.containers[pod.containers[0]].pid != 0
    ensures var s' := NextInLoop(s, p, pod, remove); PastWait(s', p, pod, remove) || AtWait(s', p, pod, remove)
  {
  }

  lemma StartPass(s: State, p: string, pod: Sandbox, remove: bool)
    requires WellFormed(s) && p in s.ops && s.ops[p] == LoopHead(pod, remove) && pod.containers != []
    ensures var s' := Exec(s, [Resume(p)]); PastWait(s', p, pod, remove) || AtWait(s', p, pod, remove)
  {
    assert pod.containers[0] in s.containers ==> RecordOk(s, s.containers[pod.containers[0]]);
    NextPass(s, p, pod, remove);
    TakesNext(s, p, pod, remove);
    LeadsOne(s, Resume(p), NextInLoop(s, p, pod, remove));
    assert Exec(s, [Resume(p)]) == NextInLoop(s, p, pod, remove);
  }

  lemma WaitOut(s: State, p: string, caller: Caller)
    requires p in s.ops && s.ops[p].Signalling? && s.ops[p].caller == caller && caller.TeardownCaller?
    ensures var s' := Exec(s, [Signal(p, true), Timeout(p)]);
            p in s'.ops && s'.ops[p].Terminated? && s'.ops[p].caller == caller
  {
    ExecTwo(s, Signal(p, true), Timeout(p));
  }

  lemma EndPass(s: State, p: string, pod: Sandbox, remove: bool) returns (steps: seq<Step>)
    requires pod.containers != [] && PastWait(s, p, pod, remove)
    ensures Uncancelled(p, steps)
    ensures var s' := Exec(s, steps); p in s'.ops && s'.ops[p] == LoopHead(pod.(containers := pod.containers[1..]), remove)
  {
    if s.ops[p].Terminated? {
      var cid := s.ops[p].cid;
      TakesDelete(s, p, TeardownCaller(pod, remove), cid);
      var s1 := DeleteTerminated(s, p, TeardownCaller(pod, remove), cid);
      TakesShorten(s1, p, pod, remove);
      LeadsOne(s, Resume(p), s1);
      LeadsNext(s, [Resume(p)], s1, Resume(p), StoreShorterList(s1, p, pod, remove));
      steps := [Resume(p)] + [Resume(p)];
      assert Exec(s, steps) == StoreShorterList(s1, p, pod, remove);
    } else {
      TakesShorten(s, p, pod, remove);
      LeadsOne(s, Resume(p), StoreShorterList(s, p, pod, remove));
      steps := [Resume(p)];
      assert Exec(s, steps) == StoreShorterList(s, p, pod, remove);
    }
  }

  lemma WaitOutPass(s: State, p: string, pod: Sandbox, remove: bool, begun: seq<Step>) returns (steps: seq<Step>)
    requires Uncancelled(p, begun)
    requires PastWait(Exec(s, begun), p, pod, remove) || AtWait(Exec(s, begun), p, pod, remove)
    ensures Uncancelled(p, steps) && PastWait(Exec(s, steps), p, pod, remove)
  {
    if PastWait(Exec(s, begun), p, pod, remove) {
      steps := begun;
    } else {
      var wait: seq<Step> := [Signal(p, true), Timeout(p)];
      WaitOut(Exec(s, begun), p, TeardownCaller(pod, remove));
      ExecAppend(s, begun, wait);
      steps := begun + wait;
    }
  }

  /** From the top of the loop, steps of this handler alone bring it to the top with a shorter list. */
  lemma OnePass(s: State, p: string, pod: Sandbox, remove: bool) returns (steps: seq<Step>)
    requires WellFormed(s) && p in s.ops && s.ops[p] == LoopHead(pod, remove) && pod.containers != []
    ensures Uncancelled(p, steps)
    ensures var s' := Exec(s, steps); p in s'.ops && s'.ops[p] == LoopHead(pod.(containers := pod.containers[1..]), remove)
  {
    StartPass(s, p, pod, remove);
    var first := WaitOutPass(s, p, pod, remove, [Resume(p)]);
    var second := EndPass(Exec(s, first), p, pod, remove);
    ExecAppend(s, first, second);
    steps := first + second;
  }

  /**
   From every state an attempt has reached, a dangling head included, the handler finishes on its own
   steps: every wait ended by its timeout, no cancellation.  StopPodSandbox ends with an empty list and
   NOTREADY, RemovePodSandbox with no sandbox.
   */
  lemma {:induction false} AttemptCanFinish(s: State, p: string, pod: Sandbox, remove: bool) returns (steps: seq<Step>)
    requires WellFormed(s) && p in s.ops && s.ops[p] == LoopHead(pod, remove)
    ensures Uncancelled(p, steps)
    ensures var s' := Exec(s, steps);
            && p !in s'.ops
            && (if remove then p !in s'.sandboxes else p in s'.sandboxes && s'.sandboxes[p] == pod.(containers := [], state := NotReady))
    decreases |pod.containers|
  {
    if pod.containers == [] {
      ExecTwo(s, Resume(p), Resume(p));
      steps := if remove then [Resume(p), Resume(p)] else [Resume(p)];
    } else {
      var pass := OnePass(s, p, pod, remove);
      RunKeeps(s, pass);
      var rest := AttemptCanFinish(Exec(s, pass), p, pod.(containers := pod.containers[1..]), remove);
      ExecAppend(s, pass, rest);
      steps := pass + rest;
    }
  }

  lemma UncancelledIsAttempt(p: string, steps: seq<Step>)
    requires Uncancelled(p, steps)
    ensures Attempts(p, steps)
  {
    forall i | 0 <= i < |steps| ensures AttemptStep(p, steps[i]) {
      assert Actor(steps[i]) == Some(p);
    }
  }

  lemma BeginOneMore(s0: State, steps: seq<Step>, s1: State, p: string, remove: bool) returns (s2: State)
    requires WellFormed(s0) && Leads(s0, steps, s1) && p in s1.sandboxes && p !in s1.ops
    ensures Leads(s0, steps + [BeginTeardown(p, remove)], s2) && WellFormed(s2)
    ensures p in s2.ops && s2.ops[p] == LoopHead(s1.sandboxes[p], remove)
  {
    s2 := s1.(ops := s1.ops[p := LoopHead(s1.sandboxes[p], remove)]);
    TakesTeardown(s1, p, remove);
    LeadsNext(s0, steps, s1, BeginTeardown(p, remove), s2);
    RunKeeps(s0, steps + [BeginTeardown(p, remove)]);
    LeadsIs(s0, steps + [BeginTeardown(p, remove)], s2);
  }

  lemma FinishFrom(s0: State, begun: seq<Step>, s2: State, p: string, pod: Sandbox, remove: bool)
    returns (more: seq<Step>, s: State)
    requires Leads(s0, begun, s2) && WellFormed(s2) && p in s2.ops && s2.ops[p] == LoopHead(pod, remove)
    ensures Uncancelled(p, more) && Attempts(p, more) && Leads(s0, begun + more, s) && p !in s.ops
    ensures if remove then p !in s.sandboxes else p in s.sandboxes && s.sandboxes[p] == pod.(containers := [], state := NotReady)
  {
    more := AttemptCanFinish(s2, p, pod, remove);
    s := Exec(s2, more);
    assert Exec(s0, begun) == s2;
    ExecAppend(s0, begun, more);
    LeadsIs(s0, begun + more, s);
    UncancelledIsAttempt(p, more);
  }

  /**
   Whatever attempts were cancelled or cut off before, one more call can finish, and then what all of
   them did together is what one uninterrupted call on the original state would have done.
   */
  lemma RetryCanFinish(s0: State, steps: seq<Step>, s1: State, p: string, remove: bool) returns (more: seq<Step>, s: State)
    requires WellFormed(s0) && NoHolding(s0) && p in s0.sandboxes && TeardownAtWork(s0, p)
    requires Leads(s0, steps, s1) && Attempts(p, steps) && p in s1.sandboxes && p !in s1.ops
    ensures Uncancelled(p, more) && Leads(s0, steps + [BeginTeardown(p, remove)] + more, s)
    ensures Finished(s, p) && Own(s, p) == Own(s0, p) - Elements(s0.sandboxes[p].containers)
    ensures if remove then p !in s.sandboxes
            else p in s.sandboxes && s.sandboxes[p] == s0.sandboxes[p].(containers := [], state := NotReady)
  {
    var begun := steps + [BeginTeardown(p, remove)];
    var s2 := BeginOneMore(s0, steps, s1, p, remove);
    more, s := FinishFrom(s0, begun, s2, p, s1.sandboxes[p], remove);
    assert s1.sandboxes[p].(containers := [], state := NotReady) == s0.sandboxes[p].(containers := [], state := NotReady) by {
      AttemptsProgress(s0, steps, p);
      LeadsIs(s0, steps, s1);
    }
    FinishedTeardown(s0, begun + more, s, p);
  }

  // ---------------------------------------------------------------- sandbox incarnations

  lemma PodSandboxStep(s: State, p: string)
    requires WellFormed(s) && p in s.sandboxes
    ensures var s' := DoResume(s, p);
            p in s'.sandboxes ==>
              && s'.sandboxes[p] == s.sandboxes[p].(containers := s'.sandboxes[p].containers, state := s'.sandboxes[p].state)
              && (s.sandboxes[p].state == NotReady ==> s'.sandboxes[p] == s.sandboxes[p])
  {
    assert SandboxOk(s, p, s.sandboxes[p]);
    if p in s.ops {
      assert OpOk(s, p, s.ops[p]);
    }
  }

  lemma QuietStep(s: State, step: Step, p: string)
    requires !step.BeginRemove? && !step.Resume? && p in s.sandboxes
    ensures p in Apply(s, step).sandboxes && Apply(s, step).sandboxes[p] == s.sandboxes[p]
  {
  }

  lemma RemoveSandboxStep(s: State, q: string, cid: string, p: string)
    requires WellFormed(s) && p in s.sandboxes
    ensures var s' := DoBeginRemove(s, q, cid);
            p in s'.sandboxes ==>
              && s'.sandboxes[p] == s.sandboxes[p].(containers := s'.sandboxes[p].containers, state := s'.sandboxes[p].state)
              && (s.sandboxes[p].state == NotReady ==> s'.sandboxes[p] == s.sandboxes[p])
  {
    assert SandboxOk(s, p, s.sandboxes[p]);
  }

  lemma SandboxStep(s: State, step: Step, p: string)
    requires WellFormed(s) && p in s.sandboxes
    ensures var s' := Apply(s, step);
            p in s'.sandboxes ==>
              && s'.sandboxes[p] == s.sandboxes[p].(containers := s'.sandboxes[p].containers, state := s'.sandboxes[p].state)
              && (s.sandboxes[p].state == NotReady ==> s'.sandboxes[p] == s.sandboxes[p])
  {
    if step == Resume(p) {
      PodSandboxStep(s, p);
    } else if step.BeginRemove? {
      RemoveSandboxStep(s, step.podID, step.cid, p);
    } else if step.Resume? {
      ResumeLocal(s, step.podID);
    } else {
      QuietStep(s, step, p);
    }
  }

  /**
   As long as a sandbox is not deleted only its list and state change, and once it is NOTREADY nothing
   of it does: it never becomes READY again and never lists a container again.
   */
  lemma {:induction false} IncarnationIsMonotone(s: State, steps: seq<Step>, s': State, p: string)
    requires WellFormed(s) && Leads(s, steps, s')
    requires forall i, t {:trigger Leads(s, steps[..i], t)} | 0 <= i <= |steps| && Leads(s, steps[..i], t) :: p in t.sandboxes
    ensures p in s.sandboxes && p in s'.sandboxes
    ensures var before, after := s.sandboxes[p], s'.sandboxes[p];
            && after == before.(containers := after.containers, state := after.state)
            && (before.state == NotReady ==> after == before && after.containers == [])
  {
    assert steps[..|steps|] == steps;
    assert Leads(s, steps[..|steps|], s');
    if steps == [] {
      assert Exec(s, steps) == s;
      assert SandboxOk(s, p, s.sandboxes[p]);
    } else {
      var init := steps[..|steps| - 1];
      var t := Exec(s, init);
      LeadsIs(s, init, t);
      forall i, u | 0 <= i <= |init| && Leads(s, init[..i], u) ensures p in u.sandboxes {
        assert init[..i] == steps[..i];
        assert Leads(s, steps[..i], u);
      }
      IncarnationIsMonotone(s, init, t, p);
      RunKeeps(s, init);
      SandboxStep(t, steps[|steps| - 1], p);
      assert s' == Exec(s, steps);
    }
  }
}
