/**
 What a handler needs to know of the run it is part of: the steps it took itself, and that the steps of
 everyone else leave the handler and the sandbox record of its pod alone.
 */
module Tracing {
  import opened Records
  import opened Lifecycle
  import opened WellFormedness
  import opened Locality

  ghost predicate Takes(before: State, step: Step, after: State) {
    forall s {:trigger Apply(s, step)} | s == before :: Apply(s, step) == after
  }

  lemma ReachedIs(steps: seq<Step>, s: State)
    requires Reached(steps, s)
    ensures Exec(INIT, steps) == s && WellFormed(s)
  {
    RunKeeps(INIT, steps);
  }

  lemma LeadsNowhere(s: State)
    ensures Leads(s, [], s)
  {
  }

  lemma LeadsNext(from: State, steps: seq<Step>, s: State, step: Step, s': State)
    requires Leads(from, steps, s) && Takes(s, step, s')
    ensures Leads(from, steps + [step], s')
  {
    assert (steps + [step])[..|steps|] == steps;
    assert Exec(from, steps) == s && Apply(s, step) == s';
  }

  lemma LeadsOne(s: State, step: Step, s': State)
    requires Takes(s, step, s')
    ensures Leads(s, [step], s')
  {
    LeadsNext(s, [], s, step, s');
    assert [] + [step] == [step];
  }

  // ---------------------------------------------------------------- the steps of one pod's handlers

  /** The steps that the handlers of p took, in order. */
  function StepsOf(steps: seq<Step>, p: string): seq<Step> {
    if steps == [] then []
    else
      var init, last := StepsOf(steps[..|steps| - 1], p), steps[|steps| - 1];
      if Actor(last) == Some(p) then init + [last] else init
  }

  /** The run went on from `before` to `after`, and of the steps between them the handlers of p took these. */
  ghost predicate Adds(before: seq<Step>, after: seq<Step>, p: string, own: seq<Step>) {
    before <= after && forall q {:trigger StepsOf(after[|before|..], q)} | q == p :: StepsOf(after[|before|..], q) == own
  }

  lemma {:induction false} StepsOfConcat(a: seq<Step>, b: seq<Step>, p: string)
    ensures StepsOf(a + b, p) == StepsOf(a, p) + StepsOf(b, p)
  {
    if b == [] {
      assert a + b == a;
    } else {
      var init := b[..|b| - 1];
      StepsOfConcat(a, init, p);
      assert (a + b)[..|a + b| - 1] == a + init;
    }
  }

  lemma AddsNothing(trace: seq<Step>, p: string)
    ensures Adds(trace, trace, p, [])
  {
  }

  lemma AddsOne(trace: seq<Step>, step: Step, p: string)
    ensures Adds(trace, trace + [step], p, if Actor(step) == Some(p) then [step] else [])
  {
    assert (trace + [step])[|trace|..] == [step] && [step][..0] == [];
    assert StepsOf([], p) == [];
  }

  lemma AddsMore(a: seq<Step>, b: seq<Step>, c: seq<Step>, p: string, x: seq<Step>, y: seq<Step>)
    requires Adds(a, b, p, x) && Adds(b, c, p, y)
    ensures Adds(a, c, p, x + y)
  {
    assert c[|a|..] == b[|a|..] + c[|b|..];
    assert StepsOf(b[|a|..], p) == x && StepsOf(c[|b|..], p) == y;
    StepsOfConcat(b[|a|..], c[|b|..], p);
  }

  lemma AddsStill(a: seq<Step>, b: seq<Step>, c: seq<Step>, p: string, x: seq<Step>)
    requires Adds(a, b, p, x) && Adds(b, c, p, [])
    ensures Adds(a, c, p, x)
  {
    AddsMore(a, b, c, p, x, []);
    assert x + [] == x;
  }

  lemma AddsAfterPause(a: seq<Step>, b: seq<Step>, c: seq<Step>, p: string, x: seq<Step>)
    requires Adds(a, b, p, []) && Adds(b, c, p, x)
    ensures Adds(a, c, p, x)
  {
    AddsMore(a, b, c, p, [], x);
    assert [] + x == x;
  }

  lemma {:induction false} StepsOfAll(steps: seq<Step>, i: nat, p: string)
    requires i < |steps| && Actor(steps[i]) == Some(p)
    ensures steps[i] in StepsOf(steps, p)
  {
    if i < |steps| - 1 {
      StepsOfAll(steps[..|steps| - 1], i, p);
    }
  }

  // ---------------------------------------------------------------- the steps of everyone else

  lemma ExitKeepsPods(s: State, pid: int, code: int)
    ensures DoProcExit(s, pid, code).ops == s.ops && DoProcExit(s, pid, code).sandboxes == s.sandboxes
  {
  }

  lemma TrackWriteKeepsPods(s: State, t: Tracker)
    ensures DoTrackWrite(s, t).ops == s.ops && DoTrackWrite(s, t).sandboxes == s.sandboxes
  {
  }

  lemma TrackKeepsPods(s: State, cid: string, pid: int)
    ensures DoTrack(s, cid, pid).ops == s.ops && DoTrack(s, cid, pid).sandboxes == s.sandboxes
    ensures DoTrackRead(s, cid, pid).ops == s.ops && DoTrackRead(s, cid, pid).sandboxes == s.sandboxes
  {
  }

  lemma BackgroundKeepsPods(s: State, step: Step)
    requires Background(step)
    ensures Apply(s, step).ops == s.ops && Apply(s, step).sandboxes == s.sandboxes
  {
    match step
    case ProcExit(pid, code) => ExitKeepsPods(s, pid, code);
    case Track(cid, pid) => TrackKeepsPods(s, cid, pid);
    case TrackRead(cid, pid) => TrackKeepsPods(s, cid, pid);
    case TrackWrite(t) => TrackWriteKeepsPods(s, t);
  }

  lemma ForeignStep(s: State, step: Step, p: string)
    requires WellFormed(s) && Actor(step) != Some(p)
    ensures SamePod(s, Apply(s, step), p)
  {
    if Background(step) {
      BackgroundKeepsPods(s, step);
    } else {
      StepUntouched(s, step, p);
    }
  }

  // ---------------------------------------------------------------- which write is which step

  lemma TakesRun(s: State, sb: Sandbox)
    ensures Takes(s, RunSandbox(sb), DoRunSandbox(s, sb))
  {
  }

  lemma TakesCreate(s: State, cnt: Container)
    ensures Takes(s, BeginCreate(cnt), DoBeginCreate(s, cnt))
  {
  }

  lemma TakesStart(s: State, p: string, cid: string)
    ensures Takes(s, BeginStart(p, cid), DoBeginStart(s, p, cid))
  {
  }

  lemma TakesSpawn(s: State, p: string, pid: int, now: int)
    ensures Takes(s, Spawn(p, pid, now), DoSpawn(s, p, pid, now))
    ensures Takes(s, SpawnFails(p), DoSpawnFails(s, p))
  {
  }

  lemma TakesStop(s: State, p: string, cid: string)
    requires CanBegin(s, p, cid)
    ensures Takes(s, BeginStop(p, cid), EnterTerminate(s, p, StopCaller, s.containers[cid]))
  {
  }

  lemma TakesRemove(s: State, p: string, cid: string)
    requires CanBegin(s, p, cid)
    ensures Takes(s, BeginRemove(p, cid), EnterTerminate(Unlisted(s, p, cid), p, RemoveCaller, s.containers[cid]))
  {
  }

  lemma TakesTeardown(s: State, p: string, remove: bool)
    ensures Takes(s, BeginTeardown(p, remove), DoBeginTeardown(s, p, remove))
  {
  }

  lemma TakesSignal(s: State, p: string, caller: Caller, cnt: Container)
    requires p in s.ops && s.ops[p] == Signalling(caller, cnt)
    ensures Takes(s, Signal(p, true), s.(ops := s.ops[p := Polling(caller, cnt)]))
    ensures Takes(s, Signal(p, false), AfterTerminate(Kill(s, cnt.pid), p, caller, cnt.id))
  {
  }

  lemma TakesTick(s: State, p: string, caller: Caller, cnt: Container)
    requires p in s.ops && s.ops[p] == Polling(caller, cnt)
    ensures Takes(s, Tick(p),
              if cnt.id in s.containers && s.containers[cnt.id].state == Running then s else AfterTerminate(s, p, caller, cnt.id))
  {
  }

  lemma TakesEnd(s: State, p: string, caller: Caller, cnt: Container)
    requires p in s.ops && s.ops[p] == Polling(caller, cnt)
    ensures Takes(s, Timeout(p), AfterTerminate(Kill(s, cnt.pid), p, caller, cnt.id))
    ensures Takes(s, Cancel(p), Fail(Kill(s, cnt.pid), p, caller, cnt.id))
  {
  }

  lemma TakesListing(s: State, p: string, pod: Sandbox, cid: string)
    requires p in s.ops && s.ops[p] == Creating(pod, cid)
    ensures Takes(s, Resume(p), FinishCreate(s, p, pod))
  {
  }

  lemma TakesStored(s: State, p: string, cnt: Container)
    requires p in s.ops && s.ops[p] == StartSpawned(cnt)
    ensures Takes(s, Resume(p), StoreStarted(s, p, cnt))
  {
  }

  lemma TakesTracking(s: State, p: string, cnt: Container)
    requires p in s.ops && s.ops[p] == StartStored(cnt)
    ensures Takes(s, Resume(p), SpawnTracker(s, p, cnt))
  {
  }

  lemma TakesNext(s: State, p: string, pod: Sandbox, remove: bool)
    requires p in s.ops && s.ops[p] == LoopHead(pod, remove)
    ensures Takes(s, Resume(p), NextInLoop(s, p, pod, remove))
  {
  }

  lemma TakesDelete(s: State, p: string, caller: Caller, cid: string)
    requires p in s.ops && s.ops[p] == Terminated(caller, cid)
    ensures Takes(s, Resume(p), DeleteTerminated(s, p, caller, cid))
  {
  }

  lemma TakesShorten(s: State, p: string, pod: Sandbox, remove: bool)
    requires p in s.ops && s.ops[p] == Unlisting(pod, remove)
    ensures Takes(s, Resume(p), StoreShorterList(s, p, pod, remove))
  {
  }

  lemma TakesEmptied(s: State, p: string)
    requires p in s.ops && s.ops[p] == Emptied
    ensures Takes(s, Resume(p), DeleteEmptied(s, p))
  {
  }

  lemma TakesTrack(s: State, cid: string, pid: int)
    ensures Takes(s, Track(cid, pid), DoTrack(s, cid, pid))
  {
  }
}
