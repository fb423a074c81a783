/** Theorems about whole runs of the protocol, for every interleaving and any behaviour of the clients. */
module ProtocolRuns {
  import opened ChannelProtocol
  import opened ProtocolSafety
  import opened Collections

  lemma {:induction false} RunKeepsInv(run: seq<State>, steps: seq<Step>, n: nat)
    requires IsRun(run, steps) && n <= |steps|
    ensures Inv(run[n])
  {
    if n > 0 {
      RunKeepsInv(run, steps, n - 1);
      StepKeepsInv(run[n - 1], steps[n - 1]);
    }
  }

  lemma {:induction false} CapIsConstant(run: seq<State>, steps: seq<Step>, n: nat)
    requires IsRun(run, steps) && n <= |steps|
    ensures run[n].cap == run[0].cap
  {
    if n > 0 { CapIsConstant(run, steps, n - 1); }
  }

  // ---------------------------------------------------------------- capacity and emptiness

  /** Tracked clients, pending joins and joins on their way into the tracker never exceed the limit. */
  lemma CapacityReserved(run: seq<State>, steps: seq<Step>, n: nat, c: ChId)
    requires IsRun(run, steps) && n <= |steps| && run[n].cap >= 1 && c in run[n].chans
    ensures var ch := run[n].chans[c];
            |ch.clients| + |ch.joinPool| + |Admitted(ch)| <= run[n].cap
  {
    RunKeepsInv(run, steps, n);
  }

  /** `add_client` inside `resolve_pool` never fails with POOL_FULL: every admitted user is added. */
  lemma AdmittedIsAdded(run: seq<State>, steps: seq<Step>, n: nat, c: ChId, fd: Fd)
    requires IsRun(run, steps) && n < |steps| && run[n].cap >= 1
    requires steps[n] == Work(c, Add(fd))
    ensures run[n + 1].chans[c].clients == run[n].chans[c].clients + {fd}
    ensures |run[n].chans[c].clients| < run[n].cap
  {
    RunKeepsInv(run, steps, n);
    var ch := run[n].chans[c];
    AddKeepsBudget(run[n].cap, ch.clients, ch.pc.todo, fd);
    assert ch.pc.todo != {};
  }

  lemma StoppedMeansEmpty(run: seq<State>, steps: seq<Step>, n: nat, c: ChId)
    requires IsRun(run, steps) && n <= |steps| && c in run[n].chans && run[n].chans[c].stop
    ensures Vacant(run[n].chans[c])
  {
    RunKeepsInv(run, steps, n);
  }

  /** `check_channels` destroys only channels with no member, no pending join and no worker. */
  lemma DestroyedIsEmpty(run: seq<State>, steps: seq<Step>, n: nat)
    requires IsRun(run, steps) && n < |steps| && steps[n] == Serve(Destroy)
    ensures var c := run[n].spc.id;
            run[n].chans[c].stop && Vacant(run[n].chans[c]) && !run[n].chans[c].lock.ByWorker?
            && c !in run[n + 1].chans
  {
    RunKeepsInv(run, steps, n);
  }

  // ---------------------------------------------------------------- waiting for a stopped worker

  /** The server is blocked in `worker.join()` of channel `c`: a restart, or the destructor. */
  predicate WaitsFor(pc: ServerPc, c: ChId) {
    (pc.AwaitWorker? && pc.at == c) || (pc.Destroying? && pc.id == c)
  }

  /** How many steps the worker of a stopped channel has left. */
  function Remaining(ch: Chan): nat {
    match ch.pc
    case Unlocking => |ch.marked| + 4
    case Broadcasting => |ch.marked| + 3
    case Deleting(todo) => |todo| + 2
    case LoopCheck => 1
    case _ => 0
  }

  predicate IsWorkOf(step: Step, c: ChId) {
    step.Work? && step.c == c
  }

  /** While the server holds the lock and sees `stop_flag`, the old worker is past its critical section. */
  lemma RestartFindsWorkerPastLock(run: seq<State>, steps: seq<Step>, n: nat)
    requires IsRun(run, steps) && n <= |steps| && run[n].spc.AwaitWorker?
    ensures run[n].spc.at in run[n].chans
    ensures var ch := run[n].chans[run[n].spc.at];
            ch.stop && ch.lock.ByServer? && PastLock(ch.pc)
  {
    RunKeepsInv(run, steps, n);
    assert Holds(run[n].spc, run[n].spc.at);
  }

  lemma WorkerProgress(cap: nat, now: nat, ch: Chan, w: WorkerStep)
    requires Shape(now, ch) && ch.stop && ch.emptySince > 0 && WorkerEnabled(ch, w)
    ensures w != Lock && Remaining(WorkerApply(cap, now, ch, w)) < Remaining(ch)
  {
    if w.Delete? {
      assert |ch.pc.todo - {w.fd}| == |ch.pc.todo| - 1;
    } else if w.Broadcast? {
      assert w.failed == {} && ch.marked + w.failed == ch.marked;
    }
  }

  predicate EndsWait(step: Step) {
    step == Serve(Restart) || step == Serve(Destroy)
  }

  /** A step taken while the server waits ends the wait, brings the awaited worker closer to its end
      without taking a lock, or does not touch that worker. */
  lemma WaitMakesProgress(s: State, step: Step, c: ChId)
    requires Inv(s) && Enabled(s, step) && WaitsFor(s.spc, c)
    ensures c in s.chans
    ensures EndsWait(step) ==> s.chans[c].pc.Exited?
    ensures !EndsWait(step) ==> WaitsFor(Apply(s, step).spc, c) && c in Apply(s, step).chans
    ensures IsWorkOf(step, c) ==> step.w != Lock && Remaining(Apply(s, step).chans[c]) < Remaining(s.chans[c])
    ensures !EndsWait(step) && !IsWorkOf(step, c) ==> Apply(s, step).chans[c] == s.chans[c]
  {
    assert Holds(s.spc, c) || s.spc.Destroying?;
    if IsWorkOf(step, c) { WorkerProgress(s.cap, s.now, s.chans[c], step.w); }
  }

  /** The wait is never a deadlock: the worker has ended, or it has a step that needs no lock. */
  lemma WaitIsNotDeadlock(s: State, c: ChId) returns (step: Step)
    requires Inv(s) && WaitsFor(s.spc, c)
    ensures Enabled(s, step)
    ensures EndsWait(step) || (IsWorkOf(step, c) && step.w != Lock)
  {
    var ch := s.chans[c];
    if s.spc.AwaitWorker? { assert Holds(s.spc, c); }
    match ch.pc {
      case Exited => step := Serve(if s.spc.AwaitWorker? then Restart else Destroy);
      case LoopCheck => step := Work(c, Check);
      case Unlocking => step := Work(c, Unlock);
      case Broadcasting => step := Work(c, Broadcast({}));
      case Deleting(todo) =>
        if todo == {} {
          step := Work(c, TickDone);
        } else {
          var fd := AnyOf(todo);
          step := Work(c, Delete(fd));
        }
      case _ => assert false;
    }
  }

  function WorkCount(steps: seq<Step>, start: nat, end: nat, c: ChId): nat
    requires start <= end <= |steps|
    decreases end
  {
    if start == end then 0
    else WorkCount(steps, start, end - 1, c) + if IsWorkOf(steps[end - 1], c) then 1 else 0
  }

  function RemainingAt(s: State, c: ChId): nat {
    if c in s.chans then Remaining(s.chans[c]) else 0
  }

  lemma OneMoreWait(run: seq<State>, steps: seq<Step>, k: nat, c: ChId)
    requires IsRun(run, steps) && k < |steps|
    requires WaitsFor(run[k].spc, c) && c in run[k].chans && WaitsFor(run[k + 1].spc, c) && c in run[k + 1].chans
    ensures RemainingAt(run[k + 1], c) + (if IsWorkOf(steps[k], c) then 1 else 0) <= RemainingAt(run[k], c)
  {
    RunKeepsInv(run, steps, k);
    WaitMakesProgress(run[k], steps[k], c);
  }

  lemma {:induction false} CountBounded(rank: seq<nat>, steps: seq<Step>, start: nat, end: nat, c: ChId)
    requires start <= end <= |steps| && |rank| == |steps| + 1
    requires forall k :: start <= k < end ==> rank[k + 1] + (if IsWorkOf(steps[k], c) then 1 else 0) <= rank[k]
    ensures WorkCount(steps, start, end, c) + rank[end] <= rank[start]
    decreases end
  {
    if start < end {
      CountBounded(rank, steps, start, end - 1, c);
      assert rank[end - 1 + 1] + (if IsWorkOf(steps[end - 1], c) then 1 else 0) <= rank[end - 1];
    }
  }

  /** Over any stretch of a run in which the server stays blocked, the awaited worker takes at most
      `Remaining` steps, and then has ended. */
  lemma WaitIsBounded(run: seq<State>, steps: seq<Step>, start: nat, end: nat, c: ChId)
    requires IsRun(run, steps) && start <= end <= |steps|
    requires forall k :: start <= k <= end ==> WaitsFor(run[k].spc, c) && c in run[k].chans
    ensures WorkCount(steps, start, end, c) + Remaining(run[end].chans[c]) <= Remaining(run[start].chans[c])
  {
    var rank := seq(|run|, k requires 0 <= k < |run| => RemainingAt(run[k], c));
    forall k | start <= k < end ensures rank[k + 1] + (if IsWorkOf(steps[k], c) then 1 else 0) <= rank[k] {
      OneMoreWait(run, steps, k, c);
    }
    CountBounded(rank, steps, start, end, c);
  }

  // ---------------------------------------------------------------- a restart that misses its store

  /** The new worker's loop test runs between `worker = std::thread(...)` and `stop_flag.store(false)`. */
  predicate RacedCheck(s: State, step: Step, c: ChId) {
    step == Work(c, Check) && s.spc.ClearStop? && s.spc.at == c
  }

  /** The worker has ended and no restart will ever be attempted, because `stop_flag` is (about to be) clear. */
  predicate Stranded(s: State, c: ChId) {
    c in s.chans && s.chans[c].pc.Exited? && (!s.chans[c].stop || (s.spc.ClearStop? && s.spc.at == c))
  }

  lemma StrandedStep(s: State, step: Step, c: ChId)
    requires Inv(s) && Enabled(s, step)
    ensures Stranded(Apply(s, step), c) <==> Stranded(s, c) || RacedCheck(s, step, c)
    ensures Stranded(s, c) ==> s.chans[c].joinPool <= Apply(s, step).chans[c].joinPool
  {
    if s.spc.ClearStop? { assert Holds(s.spc, s.spc.at); }
    if step.Work? { assert step.c in s.chans; } else if step.Serve? { StrandedServe(s, step.a, c); }
  }

  lemma {:induction false} StrandedServe(s: State, a: ServerStep, c: ChId)
    requires ServerEnabled(s, a)
    requires s.spc.AwaitWorker? && s.spc.at in s.chans ==> s.chans[s.spc.at].stop
    requires s.spc.Destroying? && s.spc.id in s.chans ==> s.chans[s.spc.id].stop
    ensures Stranded(ServerApply(s, a), c) <==> Stranded(s, c)
    ensures Stranded(s, c) ==> s.chans[c].joinPool <= ServerApply(s, a).chans[c].joinPool
  {
    PoolGrows(s, a, c);
  }

  lemma PoolGrows(s: State, a: ServerStep, c: ChId)
    requires ServerEnabled(s, a)
    ensures var t := ServerApply(s, a);
            c in s.chans && c in t.chans ==> s.chans[c].joinPool <= t.chans[c].joinPool
  {
  }

  /** A channel ends up with pending joins and no worker to resolve them exactly when some restarted
      worker read `stop_flag` before the server cleared it; it then stays so for the rest of the run. */
  lemma {:induction false} StrandedExactlyByRace(run: seq<State>, steps: seq<Step>, n: nat, c: ChId)
    requires IsRun(run, steps) && n <= |steps|
    ensures Stranded(run[n], c) <==> exists i :: 0 <= i < n && RacedCheck(run[i], steps[i], c)
  {
    if n > 0 {
      StrandedExactlyByRace(run, steps, n - 1, c);
      RunKeepsInv(run, steps, n - 1);
      StrandedStep(run[n - 1], steps[n - 1], c);
    }
  }

  // ---------------------------------------------------------------- lock discipline

  /** The server holds exactly the lock its program point says, so none when it is between requests. */
  ghost predicate Disciplined(s: State) {
    forall c :: c in s.chans ==> (s.chans[c].lock.ByServer? <==> Holds(s.spc, c))
  }

  /** The refused user's error frame could not be sent, so `send_frame` throws out of `consume_report`. */
  predicate LostRefusal(s: State, step: Step) {
    step == Serve(PingTarget(false)) && s.spc.SwitchPing? && s.spc.at in s.chans
    && !HasSlot(s.cap, s.chans[s.spc.at])
  }

  predicate Stuck(s: State, c: ChId) {
    c in s.chans && s.chans[c].lock.ByServer? && !Holds(s.spc, c) && !s.chans[c].stop
  }

  lemma DisciplinedServe(s: State, a: ServerStep)
    requires ServerEnabled(s, a) && Disciplined(s) && !LostRefusal(s, Serve(a))
    ensures Disciplined(ServerApply(s, a))
  {
  }

  lemma DisciplinedStep(s: State, step: Step)
    requires Inv(s) && Enabled(s, step) && Disciplined(s) && !LostRefusal(s, step)
    ensures Disciplined(Apply(s, step))
  {
    if step.Serve? { DisciplinedServe(s, step.a); }
  }

  lemma StaysUnheld(s: State, a: ServerStep, c: ChId)
    requires ServerEnabled(s, a) && Stuck(s, c)
    ensures !Holds(ServerApply(s, a).spc, c)
  {
  }

  lemma StaysLocked(s: State, a: ServerStep, c: ChId)
    requires ServerEnabled(s, a) && Stuck(s, c)
    requires s.spc.Destroying? && s.spc.id in s.chans ==> s.chans[s.spc.id].stop
    ensures var t := ServerApply(s, a); c in t.chans && t.chans[c].lock.ByServer? && !t.chans[c].stop
  {
  }

  lemma StuckServe(s: State, a: ServerStep, c: ChId)
    requires ServerEnabled(s, a) && Stuck(s, c)
    requires s.spc.Destroying? && s.spc.id in s.chans ==> s.chans[s.spc.id].stop
    ensures Stuck(ServerApply(s, a), c)
  {
    StaysUnheld(s, a, c);
    StaysLocked(s, a, c);
  }

  lemma StuckStep(s: State, step: Step, c: ChId)
    requires Inv(s) && Enabled(s, step) && Stuck(s, c)
    ensures Stuck(Apply(s, step), c)
  {
    if step.Serve? { StuckServe(s, step.a, c); }
  }

  lemma LostRefusalSticks(s: State, step: Step)
    requires Inv(s) && s.cap >= 1 && Enabled(s, step) && LostRefusal(s, step)
    ensures Stuck(Apply(s, step), s.spc.at)
  {
    assert Holds(s.spc, s.spc.at);
  }

  lemma {:induction false} StuckStays(run: seq<State>, steps: seq<Step>, i: nat, n: nat, c: ChId)
    requires IsRun(run, steps) && i <= n <= |steps| && Stuck(run[i], c)
    ensures Stuck(run[n], c)
    decreases n
  {
    if i < n {
      StuckStays(run, steps, i, n - 1, c);
      RunKeepsInv(run, steps, n - 1);
      StuckStep(run[n - 1], steps[n - 1], c);
    }
  }

  /** The lock discipline holds after a run exactly when no refusal was lost on the way: every
      `consume_report` and every lobby join ends with no `pool_mtx` held, except that a refusal whose
      error frame cannot be sent leaves the full channel locked for good. */
  lemma {:induction false} DisciplineExactly(run: seq<State>, steps: seq<Step>, n: nat)
    requires IsRun(run, steps) && n <= |steps| && run[0].cap >= 1
    ensures Disciplined(run[n]) <==> forall i :: 0 <= i < n ==> !LostRefusal(run[i], steps[i])
  {
    if i :| 0 <= i < n && LostRefusal(run[i], steps[i]) {
      RunKeepsInv(run, steps, i);
      CapIsConstant(run, steps, i);
      LostRefusalSticks(run[i], steps[i]);
      StuckStays(run, steps, i + 1, n, run[i].spc.at);
    } else if n > 0 {
      DisciplineExactly(run, steps, n - 1);
      RunKeepsInv(run, steps, n - 1);
      DisciplinedStep(run[n - 1], steps[n - 1]);
    }
  }
}
