/** `find_or_create_channel` and `check_channels` inside whole runs: which channel a placement picks,
    and when an idle channel is destroyed. */
module ProtocolPlacement {
  import opened ChannelProtocol
  import opened ProtocolSafety
  import opened ProtocolRuns

  // ---------------------------------------------------------------- placement

  predicate Searching(pc: ServerPc, fd: Fd) {
    (pc.Probe? || pc.Probed? || pc.Search?) && pc.fd == fd
  }

  function FoundFull(pc: ServerPc): set<ChId> {
    if pc.Probe? || pc.Probed? || pc.Search? then pc.full else {}
  }

  predicate ProbedFull(s: State, step: Step, fd: Fd, id: ChId) {
    step == Serve(Ping) && s.spc.Probed? && s.spc.at == id && s.spc.fd == fd
    && id in s.chans && !HasSlot(s.cap, s.chans[id])
  }

  lemma {:induction false} FullGrowsServe(s: State, a: ServerStep, id: ChId)
    requires ServerEnabled(s, a) && id in FoundFull(ServerApply(s, a).spc)
    ensures var fd := ServerApply(s, a).spc.fd;
            ProbedFull(s, Serve(a), fd, id) || (id in FoundFull(s.spc) && s.spc.fd == fd)
  {
  }

  lemma FullGrowsByProbe(s: State, step: Step, id: ChId)
    requires Enabled(s, step) && id in FoundFull(Apply(s, step).spc)
    ensures var fd := Apply(s, step).spc.fd;
            ProbedFull(s, step, fd, id) || (id in FoundFull(s.spc) && s.spc.fd == fd)
  {
    if step.Serve? { FullGrowsServe(s, step.a, id); }
  }

  /** An id counts as full only after its own channel was probed, under its lock and during this very
      placement, and had no slot. */
  lemma {:induction false} FullWasProbed(run: seq<State>, steps: seq<Step>, n: nat, id: ChId) returns (j: nat)
    requires IsRun(run, steps) && n <= |steps| && id in FoundFull(run[n].spc)
    ensures j < n && ProbedFull(run[j], steps[j], run[n].spc.fd, id)
    ensures forall k :: j <= k <= n ==> Searching(run[k].spc, run[n].spc.fd)
  {
    FullGrowsByProbe(run[n - 1], steps[n - 1], id);
    if ProbedFull(run[n - 1], steps[n - 1], run[n].spc.fd, id) {
      j := n - 1;
    } else {
      j := FullWasProbed(run, steps, n - 1, id);
    }
  }

  /** A fresh channel is created only after every existing one was found full, and it gets the least
      unused positive id. */
  lemma FreshOnlyWhenAllFull(run: seq<State>, steps: seq<Step>, n: nat)
    requires IsRun(run, steps) && n < |steps| && steps[n] == Serve(CreateFresh)
    ensures run[n].chans.Keys == FoundFull(run[n].spc)
    ensures var id := run[n + 1].spc.at;
            id >= 1 && id !in run[n].chans && (forall k :: 1 <= k < id ==> k in run[n].chans)
            && run[n + 1].chans == run[n].chans[id := NEW_CHAN]
  {
    RunKeepsInv(run, steps, n);
  }

  /** A placement hands over exactly one lock, that of a channel with a free slot. */
  lemma PlacementIsLockedWithSlot(run: seq<State>, steps: seq<Step>, n: nat)
    requires IsRun(run, steps) && n < |steps| && run[n].cap >= 1 && run[n + 1].spc.AtJoin?
    requires forall i :: 0 <= i <= n ==> !LostRefusal(run[i], steps[i])
    requires run[0].cap >= 1
    ensures var s := run[n + 1];
            s.spc.at in s.chans && HasSlot(s.cap, s.chans[s.spc.at])
            && forall c :: c in s.chans ==> (s.chans[c].lock.ByServer? <==> c == s.spc.at)
  {
    RunKeepsInv(run, steps, n + 1);
    CapIsConstant(run, steps, n + 1);
    DisciplineExactly(run, steps, n + 1);
    assert Holds(run[n + 1].spc, run[n + 1].spc.at);
  }

  // ---------------------------------------------------------------- idle channels

  lemma {:induction false} StampServe(s: State, a: ServerStep, c: ChId)
    requires ServerEnabled(s, a) && c in ServerApply(s, a).chans && ServerApply(s, a).chans[c].emptySince > 0
    ensures c in s.chans && ServerApply(s, a).chans[c].emptySince == s.chans[c].emptySince
  {
  }

  lemma StampOrigin(s: State, step: Step, c: ChId)
    requires Enabled(s, step) && c in Apply(s, step).chans && Apply(s, step).chans[c].emptySince > 0
    ensures Apply(s, step).chans[c].emptySince == s.now
            || (c in s.chans && Apply(s, step).chans[c].emptySince == s.chans[c].emptySince)
  {
    if step.Serve? { StampServe(s, step.a, c); }
  }

  /** A stamp in a run was carried over from the state before, or is that state's clock. */
  lemma StampStep(run: seq<State>, steps: seq<Step>, n: nat, c: ChId)
    requires IsRun(run, steps) && n < |steps|
    requires c in run[n + 1].chans && run[n + 1].chans[c].emptySince > 0
    ensures run[n + 1].chans[c].emptySince == run[n].now
            || (c in run[n].chans && run[n + 1].chans[c].emptySince == run[n].chans[c].emptySince)
  {
    StampOrigin(run[n], steps[n], c);
  }

  lemma {:induction false} ClockIsMonotone(run: seq<State>, steps: seq<Step>, i: nat, n: nat)
    requires IsRun(run, steps) && i <= n <= |steps|
    ensures run[i].now <= run[n].now
    decreases n
  {
    if i < n { ClockIsMonotone(run, steps, i, n - 1); }
  }

  /** A stamp older than some earlier clock reading was already there one state before. */
  lemma StampCarried(run: seq<State>, steps: seq<Step>, i: nat, n: nat, c: ChId)
    requires IsRun(run, steps) && i <= n < |steps|
    requires c in run[n + 1].chans && run[n + 1].chans[c].emptySince > 0
    requires run[i].now > run[n + 1].chans[c].emptySince
    ensures c in run[n].chans && run[n].chans[c].emptySince == run[n + 1].chans[c].emptySince
  {
    StampStep(run, steps, n, c);
    ClockIsMonotone(run, steps, i, n);
  }

  lemma StampedIsIdle(s: State, c: ChId)
    requires Inv(s) && c in s.chans && s.chans[c].emptySince > 0
    ensures s.chans[c].stop && Vacant(s.chans[c])
  {
  }

  /** A nonzero stamp dates the emptiness: in every earlier state with a later clock the channel
      existed, carried the same stamp, and was stopped and empty. */
  lemma {:induction false} StampedMeansIdleSince(run: seq<State>, steps: seq<Step>, i: nat, n: nat, c: ChId)
    requires IsRun(run, steps) && i <= n <= |steps|
    requires c in run[n].chans && run[n].chans[c].emptySince > 0
    requires run[i].now > run[n].chans[c].emptySince
    ensures c in run[i].chans && run[i].chans[c].emptySince == run[n].chans[c].emptySince
    ensures run[i].chans[c].stop && Vacant(run[i].chans[c])
    decreases n
  {
    if i == n {
      RunKeepsInv(run, steps, n);
      StampedIsIdle(run[n], c);
    } else {
      StampCarried(run, steps, i, n - 1, c);
      StampedMeansIdleSince(run, steps, i, n - 1, c);
    }
  }

  predicate Condemned(s: State, id: ChId) {
    Enabled(s, Serve(Inspect(id))) && Apply(s, Serve(Inspect(id))).spc.Destroying?
  }

  /** Integer time since the stamp, as the idle limit means it. */
  predicate IdleTooLong(s: State, id: ChId)
    requires s.spc.Reaping? && id in s.chans
  {
    s.spc.sample - s.chans[id].emptySince > 300000
  }

  /** When the stamp is not newer than the clock sample, a channel is destroyed only if it was stopped
      and empty throughout more than 300000 ms, on every run that led there. */
  lemma DestroyedAfterIdling(run: seq<State>, steps: seq<Step>, n: nat, id: ChId)
    requires IsRun(run, steps) && n <= |steps| && Condemned(run[n], id)
    requires run[n].chans[id].emptySince <= run[n].spc.sample
    ensures var since := run[n].chans[id].emptySince;
            run[n].now - since > 300000 &&
            forall i :: 0 <= i <= n && run[i].now > since ==>
              id in run[i].chans && run[i].chans[id].stop && Vacant(run[i].chans[id])
  {
    RunKeepsInv(run, steps, n);
    var since := run[n].chans[id].emptySince;
    forall i | 0 <= i <= n && run[i].now > since
      ensures id in run[i].chans && run[i].chans[id].stop && Vacant(run[i].chans[id])
    {
      StampedMeansIdleSince(run, steps, i, n, id);
    }
  }

  /** The reaper decides as the idle limit means exactly when the stamp is not newer than its clock
      sample: a channel stamped in between wraps the unsigned subtraction and is destroyed at once. */
  lemma ReaperDecidesRightlyExactly(s: State, id: ChId)
    requires Inv(s) && Enabled(s, Serve(Inspect(id)))
    requires s.chans[id].stop && s.chans[id].emptySince > 0
    requires s.chans[id].emptySince - s.spc.sample < CLOCK_RANGE - 300000
    ensures (Condemned(s, id) <==> IdleTooLong(s, id)) <==> s.chans[id].emptySince <= s.spc.sample
  {
    var since, sample := s.chans[id].emptySince, s.spc.sample;
    if since > sample {
      assert ClockSub(sample, since) == sample + CLOCK_RANGE - since;
    }
  }
}
