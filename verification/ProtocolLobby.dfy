/** When the lobby and the channels track the same descriptor, whatever the clients do, provided `accept`
    returns descriptors that are in no tracker and no join pool. */
module ProtocolLobby {
  import opened ChannelProtocol
  import opened ProtocolSafety
  import opened ProtocolRuns
  import opened ProtocolUsers

  ghost predicate Untracked(s: State, fd: Fd) {
    forall c :: c in s.chans ==> !InTracker(s.chans[c], fd) && !InPool(s.chans[c], fd)
  }

  ghost predicate UntrackedAccepts(run: seq<State>, steps: seq<Step>) {
    IsRun(run, steps)
    && forall i :: 0 <= i < |steps| && steps[i].Serve? && steps[i].a.Accept? ==> Untracked(run[i], steps[i].a.fd)
  }

  // ---------------------------------------------------------------- trackers and pools

  /** A lobby descriptor is in no tracker, and in a join pool only between `join_and_logging` and
      `delete_client`, while the server still holds that channel's lock. */
  ghost predicate PoolsApart(s: State, fd: Fd) {
    forall c :: c in s.chans ==>
      !InTracker(s.chans[c], fd) && (InPool(s.chans[c], fd) ==> s.spc == Settle(fd, c, FromLobby))
  }

  ghost predicate Apart(s: State) {
    forall fd :: fd in s.lobby ==> PoolsApart(s, fd)
  }

  /** A switch report is admitted for a descriptor that is in the lobby. */
  predicate StaleAdmission(s: State, step: Step) {
    step == Serve(PushJoin) && s.spc.Emplace? && s.spc.org.FromChannel? && s.spc.fd in s.lobby
  }

  lemma WorkKeepsApart(s: State, c: ChId, w: WorkerStep)
    requires Inv(s) && Enabled(s, Work(c, w)) && Apart(s)
    ensures Apart(Apply(s, Work(c, w)))
  {
    var s' := Apply(s, Work(c, w));
    forall fd | fd in s'.lobby ensures PoolsApart(s', fd) {
      assert PoolsApart(s, fd);
      if w == Add(fd) {
        assert s.chans[c].lock.ByWorker? && InPool(s.chans[c], fd);
        assert Holds(s.spc, c);
      }
    }
  }

  lemma SilentKeepsMembers(s: State, a: ServerStep, fd: Fd, c: ChId)
    requires ServerEnabled(s, a) && MovesNobody(a) && c in ServerApply(s, a).chans
    ensures InTracker(ServerApply(s, a).chans[c], fd) ==> c in s.chans && InTracker(s.chans[c], fd)
    ensures InPool(ServerApply(s, a).chans[c], fd) ==> c in s.chans && InPool(s.chans[c], fd) && !s.spc.Settle?
  {
  }

  lemma SilentKeepsPools(s: State, a: ServerStep, fd: Fd)
    requires ServerEnabled(s, a) && MovesNobody(a) && PoolsApart(s, fd)
    ensures PoolsApart(ServerApply(s, a), fd)
  {
    var t := ServerApply(s, a);
    forall c | c in t.chans
      ensures !InTracker(t.chans[c], fd) && (InPool(t.chans[c], fd) ==> t.spc == Settle(fd, c, FromLobby))
    {
      SilentKeepsMembers(s, a, fd, c);
    }
  }

  lemma MoverKeepsPools(s: State, a: ServerStep, fd: Fd)
    requires ServerEnabled(s, a) && !MovesNobody(a) && PoolsApart(s, fd)
    requires a.PushJoin? && s.spc.org.FromChannel? ==> s.spc.fd != fd
    ensures fd in ServerApply(s, a).lobby ==> PoolsApart(ServerApply(s, a), fd)
  {
  }

  lemma ServeKeepsApart(s: State, a: ServerStep)
    requires ServerEnabled(s, a) && Apart(s) && (a.Accept? ==> Untracked(s, a.fd)) && !StaleAdmission(s, Serve(a))
    ensures Apart(ServerApply(s, a))
  {
    var s' := ServerApply(s, a);
    forall fd | fd in s'.lobby ensures PoolsApart(s', fd) {
      assert fd in s.lobby || a == Accept(fd);
      assert PoolsApart(s, fd);
      if MovesNobody(a) { SilentKeepsPools(s, a, fd); } else { MoverKeepsPools(s, a, fd); }
    }
  }

  lemma TimeKeepsApart(s: State, later: nat)
    requires Enabled(s, Time(later)) && Apart(s)
    ensures Apart(Apply(s, Time(later)))
  {
    var s' := Apply(s, Time(later));
    forall fd | fd in s'.lobby ensures PoolsApart(s', fd) { assert PoolsApart(s, fd); }
  }

  lemma StepKeepsApart(s: State, step: Step)
    requires Inv(s) && Enabled(s, step) && Apart(s) && !StaleAdmission(s, step)
    requires step.Serve? && step.a.Accept? ==> Untracked(s, step.a.fd)
    ensures Apart(Apply(s, step))
  {
    match step
    case Time(later) => TimeKeepsApart(s, later);
    case Work(c, w) => WorkKeepsApart(s, c, w);
    case Serve(a) => ServeKeepsApart(s, a);
  }

  lemma StaleAdmissionMixes(s: State, step: Step)
    requires Enabled(s, step) && StaleAdmission(s, step)
    ensures !Apart(Apply(s, step))
  {
    var s', fd, c := Apply(s, step), s.spc.fd, s.spc.at;
    assert fd in s'.lobby && c in s'.chans && InPool(s'.chans[c], fd);
    assert !PoolsApart(s', fd);
  }

  lemma ApartStep(run: seq<State>, steps: seq<Step>, n: nat)
    requires UntrackedAccepts(run, steps) && n < |steps| && Apart(run[n])
    ensures Apart(run[n + 1]) <==> !StaleAdmission(run[n], steps[n])
  {
    RunKeepsInv(run, steps, n);
    if StaleAdmission(run[n], steps[n]) {
      StaleAdmissionMixes(run[n], steps[n]);
    } else {
      StepKeepsApart(run[n], steps[n]);
    }
  }

  ghost predicate ApartUpTo(run: seq<State>, n: nat)
    requires n < |run|
  {
    forall k :: 0 <= k <= n ==> Apart(run[k])
  }

  ghost predicate NoStaleUpTo(run: seq<State>, steps: seq<Step>, n: nat)
    requires n <= |run| && n <= |steps|
  {
    forall i :: 0 <= i < n ==> !StaleAdmission(run[i], steps[i])
  }

  /** Along a run the lobby stays apart from every tracker and pool exactly as long as no queued switch
      report is admitted for a descriptor that is in the lobby by then. */
  lemma {:induction false} ApartExactly(run: seq<State>, steps: seq<Step>, n: nat)
    requires UntrackedAccepts(run, steps) && n <= |steps|
    ensures ApartUpTo(run, n) <==> NoStaleUpTo(run, steps, n)
  {
    if n > 0 {
      ApartExactly(run, steps, n - 1);
      if ApartUpTo(run, n - 1) { ApartStep(run, steps, n - 1); }
    }
  }

  lemma ApartIsDisjoint(s: State, c: ChId)
    requires Apart(s) && c in s.chans
    ensures s.lobby !! s.chans[c].clients
  {
    forall fd | fd in s.lobby ensures fd !in s.chans[c].clients {
      assert PoolsApart(s, fd);
      assert !InTracker(s.chans[c], fd);
    }
  }

  // ---------------------------------------------------------------- descriptors no report names

  /** In addition no switch report that is still to be handled names an accepted descriptor. */
  ghost predicate FreshAccepts(run: seq<State>, steps: seq<Step>) {
    UntrackedAccepts(run, steps)
    && forall i :: 0 <= i < |steps| && steps[i].Serve? && steps[i].a.Accept? ==> Unnamed(run[i], steps[i].a.fd)
  }

  ghost predicate Unnamed(s: State, fd: Fd) {
    forall r :: Outstanding(s, r) ==> r.fd != fd
  }

  ghost predicate LobbyIsUnnamed(s: State) {
    forall fd :: fd in s.lobby ==> Unnamed(s, fd)
  }

  lemma UnnamedIsNotStale(s: State, step: Step)
    requires Enabled(s, step) && LobbyIsUnnamed(s)
    ensures !StaleAdmission(s, step)
  {
    if s.spc.Emplace? && s.spc.org.FromChannel? {
      var r := Report(s.spc.fd, s.spc.org.src, s.spc.at);
      assert Handling(s.spc, r);
      assert Outstanding(s, r);
      assert s.spc.fd in s.lobby ==> Unnamed(s, s.spc.fd);
    }
  }

  lemma StepKeepsUnnamed(s: State, step: Step)
    requires Enabled(s, step) && Apart(s) && LobbyIsUnnamed(s)
    requires step.Serve? && step.a.Accept? ==> Unnamed(s, step.a.fd)
    ensures LobbyIsUnnamed(Apply(s, step))
  {
    var s' := Apply(s, step);
    forall fd, r | fd in s'.lobby && Outstanding(s', r) ensures r.fd != fd {
      NewReportsAreAsked(s, step, r);
      assert fd in s.lobby || step == Serve(Accept(fd));
      assert Unnamed(s, fd);
      if fd in s.lobby && step.Work? {
        assert PoolsApart(s, fd);
        assert !InTracker(s.chans[step.c], fd);
      }
    }
  }

  lemma {:induction false} NeverStale(run: seq<State>, steps: seq<Step>, n: nat)
    requires FreshAccepts(run, steps) && n <= |steps|
    ensures LobbyIsUnnamed(run[n]) && NoStaleUpTo(run, steps, n)
  {
    if n > 0 {
      NeverStale(run, steps, n - 1);
      ApartExactly(run, steps, n - 1);
      assert Apart(run[n - 1]);
      UnnamedIsNotStale(run[n - 1], steps[n - 1]);
      StepKeepsUnnamed(run[n - 1], steps[n - 1]);
    }
  }

  /** No descriptor is in the lobby tracker and in a channel tracker at once, when accepted descriptors are
      also named by no report. */
  lemma LobbyAndChannelsDisjoint(run: seq<State>, steps: seq<Step>, n: nat, c: ChId)
    requires FreshAccepts(run, steps) && n <= |steps| && c in run[n].chans
    ensures run[n].lobby !! run[n].chans[c].clients
  {
    NeverStale(run, steps, n);
    ApartExactly(run, steps, n);
    ApartIsDisjoint(run[n], c);
  }
}
