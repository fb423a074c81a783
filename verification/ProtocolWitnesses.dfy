/** Concrete runs showing that the conditions of the theorems are needed. */
module ProtocolWitnesses {
  import opened ChannelProtocol
  import opened ProtocolSafety
  import opened ProtocolRuns
  import opened ProtocolPlacement
  import opened ProtocolUsers

  /** The initial state with room for one user per channel and `lobbyCap` in the lobby. */
  function Empty(cap: nat, lobbyCap: nat): State {
    State(cap, lobbyCap, 1000, map[], {}, {}, [], [], Idle)
  }

  const READY: Chan := NEW_CHAN

  // ---------------------------------------------------------------- reusable stretches of a run

  function With(s: State, c: ChId, ch: Chan): State {
    s.(chans := s.chans[c := ch])
  }

  /** One worker step that touches nothing but its channel. */
  lemma Turn(s: State, c: ChId, ch: Chan, w: WorkerStep, ch': Chan)
    requires Reachable(With(s, c, ch)) && !w.Ask? && !w.Delete?
    requires WorkerEnabled(ch, w) && ch' == WorkerApply(s.cap, s.now, ch, w)
    ensures Reachable(With(s, c, ch'))
  {
    var s' := Advance(With(s, c, ch), Work(c, w));
    assert s' == With(s, c, ch');
  }

  lemma TurnDelete(s: State, c: ChId, ch: Chan, fd: Fd)
    requires Reachable(With(s, c, ch)) && ch.pc == Deleting({fd})
    ensures Reachable(With(s.(named := s.named - {fd}), c, ch.(clients := ch.clients - {fd}, pc := Deleting({}))))
  {
    var s' := Advance(With(s, c, ch), Work(c, Delete(fd)));
    assert {fd} - {fd} == {};
    assert s' == With(s.(named := s.named - {fd}), c, ch.(clients := ch.clients - {fd}, pc := Deleting({})));
  }

  /** The server steps of a successful join, which touch its program counter and one channel only. */
  predicate IsLocal(cap: nat, named: set<Fd>, c: ChId, ch: Chan, pc: ServerPc, a: ServerStep) {
    match a
    case ProbeLock => pc.Probe? && pc.at == c && ch.lock.Free?
    case Ping => pc.Probed? && pc.at == c && HasSlot(cap, ch)
    case LockFresh => pc.FreshLock? && pc.at == c && ch.lock.Free?
    case LockTarget => pc.SwitchLock? && pc.at == c && ch.lock.Free?
    case PingTarget(_) => pc.SwitchPing? && pc.at == c && HasSlot(cap, ch)
    case Join => pc.AtJoin? && pc.at == c && pc.fd in named
    case Restart => pc.AwaitWorker? && pc.at == c && ch.pc.Exited?
    case StoreRunning => pc.ClearStop? && pc.at == c
    case PushJoin => pc.Emplace? && pc.at == c
    case ReleaseLock => pc.Release? && pc.at == c && pc.org.FromLobby?
    case _ => false
  }

  function LocalPc(ch: Chan, pc: ServerPc, a: ServerStep): ServerPc {
    match a
    case ProbeLock => if pc.Probe? then Probed(pc.fd, pc.at, pc.todo, pc.full) else pc
    case Ping => if pc.Probed? then AtJoin(pc.fd, pc.at, FromLobby) else pc
    case LockFresh => if pc.FreshLock? then AtJoin(pc.fd, pc.at, FromLobby) else pc
    case LockTarget => if pc.SwitchLock? then SwitchPing(pc.fd, pc.src, pc.at) else pc
    case PingTarget(_) => if pc.SwitchPing? then AtJoin(pc.fd, pc.at, FromChannel(pc.src)) else pc
    case Join =>
      if !pc.AtJoin? then pc
      else if ch.stop then AwaitWorker(pc.fd, pc.at, pc.org) else Emplace(pc.fd, pc.at, pc.org)
    case Restart => if pc.AwaitWorker? then ClearStop(pc.fd, pc.at, pc.org) else pc
    case StoreRunning => if pc.ClearStop? then Emplace(pc.fd, pc.at, pc.org) else pc
    case PushJoin => if pc.Emplace? then Settle(pc.fd, pc.at, pc.org) else pc
    case _ => Idle
  }

  function LocalChan(ch: Chan, pc: ServerPc, a: ServerStep): Chan {
    match a
    case ProbeLock => ch.(lock := ByServer)
    case LockFresh => ch.(lock := ByServer)
    case LockTarget => ch.(lock := ByServer)
    case Restart => ch.(pc := LoopCheck)
    case StoreRunning => ch.(stop := false, emptySince := 0)
    case PushJoin => if pc.Emplace? then ch.(joinPool := ch.joinPool + {pc.fd}) else ch
    case ReleaseLock => ch.(lock := Free)
    case _ => ch
  }

  lemma Act(s: State, c: ChId, ch: Chan, pc: ServerPc, a: ServerStep) returns (ch': Chan, pc': ServerPc)
    requires Reachable(With(s.(spc := pc), c, ch)) && IsLocal(s.cap, s.named, c, ch, pc, a)
    ensures ch' == LocalChan(ch, pc, a) && pc' == LocalPc(ch, pc, a)
    ensures Reachable(With(s.(spc := pc'), c, ch'))
  {
    ch', pc' := LocalChan(ch, pc, a), LocalPc(ch, pc, a);
    var s' := Advance(With(s.(spc := pc), c, ch), Serve(a));
    assert s' == With(s.(spc := pc'), c, ch');
  }

  /** `join_and_logging` on a running channel. */
  lemma JoinRunning(s: State, c: ChId, ch: Chan, fd: Fd, org: Origin)
    requires Reachable(With(s.(spc := AtJoin(fd, c, org)), c, ch)) && fd in s.named && !ch.stop
    ensures Reachable(With(s.(spc := Settle(fd, c, org)), c, ch.(joinPool := ch.joinPool + {fd})))
  {
    var ch1, pc1 := Act(s, c, ch, AtJoin(fd, c, org), Join);
    var ch2, pc2 := Act(s, c, ch1, pc1, PushJoin);
  }

  lemma SamePut(s: State, c: ChId, ch: Chan)
    requires c in s.chans && s.chans[c] == ch
    ensures With(s, c, ch) == s
  {
    assert s.chans[c := ch] == s.chans;
  }

  /** The join of `fd` into the unlocked, running, empty channel `c`, from the first probe on. */
  lemma JoinFresh(s: State, fd: Fd, c: ChId, todo: set<ChId>)
    requires s.cap >= 1 && fd in s.named && s.lobby == {fd} && s.spc == Probe(fd, c, todo, {})
    requires Reachable(With(s, c, READY))
    ensures Reachable(With(s.(spc := Idle, lobby := {}), c, READY.(joinPool := {fd})))
  {
    assert s.(spc := s.spc) == s;
    var ch1, pc1 := Act(s, c, READY, s.spc, ProbeLock);
    var ch2, pc2 := Act(s, c, ch1, pc1, Ping);
    JoinRunning(s, c, ch2, fd, FromLobby);
    LeaveLobby(s, fd, c, ch2.(joinPool := ch2.joinPool + {fd}));
  }

  lemma LeaveLobby(s: State, fd: Fd, c: ChId, ch: Chan)
    requires Reachable(With(s.(spc := Settle(fd, c, FromLobby)), c, ch)) && s.lobby == {fd}
    ensures Reachable(With(s.(spc := Idle, lobby := {}), c, ch.(lock := Free)))
  {
    var s' := Advance(With(s.(spc := Settle(fd, c, FromLobby)), c, ch), Serve(Finish));
    assert s' == With(s.(spc := Release(c, FromLobby), lobby := {}), c, ch);
    var ch', pc' := Act(s.(lobby := {}), c, ch, Release(c, FromLobby), ReleaseLock);
  }

  /** A new user is accepted and placed in a channel that did not exist before. */
  lemma AdmitTo(s: State, fd: Fd, c: ChId) returns (s': State)
    requires Reachable(s) && s.spc.Idle? && s.lobby == {} && s.lobbyCap >= 1 && s.cap >= 1
    requires c !in s.chans
    ensures Reachable(s')
    ensures s' == With(s.(named := s.named + {fd}), c, READY.(joinPool := {fd}))
  {
    var s1 := Advance(s, Serve(Accept(fd)));
    var s2 := Advance(s1, Serve(LobbyJoin(fd, c)));
    SamePut(s2, c, READY);
    JoinFresh(s2, fd, c, s2.spc.todo);
    s' := With(s2.(spc := Idle, lobby := {}), c, READY.(joinPool := {fd}));
    assert s'.chans == s.chans[c := READY.(joinPool := {fd})];
  }

  /** The first tick of a channel with one pending join: the user becomes a client. */
  lemma FirstTick(s: State, fd: Fd, c: ChId)
    requires Reachable(With(s, c, READY.(joinPool := {fd}))) && s.cap >= 1
    ensures Reachable(With(s, c, READY.(clients := {fd})))
  {
    var ch0 := READY.(joinPool := {fd});
    var ch1 := ch0.(pc := Polling);
    Turn(s, c, ch0, Check, ch1);
    var ch2 := READY.(lock := ByWorker, pc := Joining({fd}));
    Turn(s, c, ch1, Lock, ch2);
    var ch3 := READY.(lock := ByWorker, clients := {fd}, pc := Joining({}));
    assert READY.clients + {fd} == {fd} && {fd} - {fd} == {};
    Turn(s, c, ch2, Add(fd), ch3);
    Turn(s, c, ch3, JoinsDone, ch3.(pc := Leaving({})));
    QuietTick(s, fd, c, {});
  }

  /** From the end of a critical section's pools to the next tick, with one client and failures `bad`. */
  lemma QuietTick(s: State, fd: Fd, c: ChId, bad: set<Fd>)
    requires Reachable(With(s, c, READY.(lock := ByWorker, clients := {fd}, pc := Leaving({}))))
    requires bad <= {fd}
    ensures Reachable(With(s, c, READY.(clients := {fd}, marked := bad, pc := Deleting(bad))))
    ensures bad == {} ==> Reachable(With(s, c, READY.(clients := {fd})))
  {
    var ch := READY.(clients := {fd});
    assert {fd} != {};
    Turn(s, c, ch.(lock := ByWorker, pc := Leaving({})), LeavesDone, ch.(lock := ByWorker, pc := Unlocking));
    Turn(s, c, ch.(lock := ByWorker, pc := Unlocking), Unlock, ch.(pc := Broadcasting));
    assert {} + bad == bad;
    Turn(s, c, ch.(pc := Broadcasting), Broadcast(bad), ch.(marked := bad, pc := Deleting(bad)));
    if bad == {} { Turn(s, c, ch.(pc := Deleting({})), TickDone, ch); }
  }

  /** The rest of a tick in which the one client's connection fails. */
  lemma LosesClient(s: State, fd: Fd, c: ChId)
    requires Reachable(With(s, c, READY.(clients := {fd}, pc := Polling)))
    ensures Reachable(With(s.(named := s.named - {fd}), c, READY.(marked := {fd})))
  {
    var ch := READY.(clients := {fd});
    Turn(s, c, ch.(pc := Polling), Lock, ch.(lock := ByWorker, pc := Joining({})));
    Turn(s, c, ch.(lock := ByWorker, pc := Joining({})), JoinsDone, ch.(lock := ByWorker, pc := Leaving({})));
    QuietTick(s, fd, c, {fd});
    TurnDelete(s, c, ch.(marked := {fd}, pc := Deleting({fd})), fd);
    assert {fd} - {fd} == {};
    var gone := READY.(marked := {fd});
    Turn(s.(named := s.named - {fd}), c, gone.(pc := Deleting({})), TickDone, gone);
  }

  /** A tick of an empty channel, up to the point where `stop_flag` is stored but not the stamp. */
  lemma StopsStamping(s: State, c: ChId, fd: Fd)
    requires Reachable(With(s, c, READY.(marked := {fd})))
    ensures Reachable(With(s, c, READY.(stop := true, lock := ByWorker, pc := Stamping)))
  {
    Turn(s, c, READY.(marked := {fd}), Check, READY.(pc := Polling));
    Turn(s, c, READY.(pc := Polling), Lock, READY.(lock := ByWorker, pc := Joining({})));
    Turn(s, c, READY.(lock := ByWorker, pc := Joining({})), JoinsDone, READY.(lock := ByWorker, pc := Leaving({})));
    Turn(s, c, READY.(lock := ByWorker, pc := Leaving({})), LeavesDone,
         READY.(stop := true, lock := ByWorker, pc := Stamping));
  }

  /** Channel 1 has lost its only user and its worker has stored `stop_flag` but no stamp. */
  lemma FirstUserGone()
    ensures Reachable(With(Empty(1, 1), 1, READY.(stop := true, lock := ByWorker, pc := Stamping)))
  {
    Start(Empty(1, 1));
    var s1 := AdmitTo(Empty(1, 1), 7, 1);
    var s := Empty(1, 1).(named := {7});
    assert s1 == With(s, 1, READY.(joinPool := {7}));
    FirstTick(s, 7, 1);
    Turn(s, 1, READY.(clients := {7}), Check, READY.(clients := {7}, pc := Polling));
    LosesClient(s, 7, 1);
    assert s.(named := s.named - {7}) == Empty(1, 1);
    StopsStamping(Empty(1, 1), 1, 7);
  }

  // ---------------------------------------------------------------- the witnesses

  /** With a limit of 0 (`chN=0`) the fresh channel is used without a probe and over-admits. */
  lemma ZeroLimitOverAdmits() returns (s: State)
    ensures Reachable(s) && s.cap == 0 && 2 in s.chans && !Reserved(s.cap, s.chans[2])
  {
    Start(Empty(0, 1));
    var s1 := Advance(Empty(0, 1), Serve(Accept(7)));
    var s2 := Advance(s1, Serve(LobbyJoin(7, 1)));
    assert s2.spc.todo == {};
    var s3 := Advance(s2, Serve(ProbeLock));
    s := NoChannelLeft(s3);
  }

  lemma NoChannelLeft(s0: State) returns (s: State)
    requires Reachable(s0) && s0.cap == 0 && 7 in s0.named && s0.spc == Probed(7, 1, {}, {}) && s0.chans.Keys == {1}
    ensures Reachable(s) && s.cap == 0 && 2 in s.chans && !Reserved(s.cap, s.chans[2])
  {
    var s1 := Advance(s0, Serve(Ping));
    assert s1.chans.Keys == {1} && s1.spc == Search(7, {}, {} + {1});
    var id := FreshFrom(s1.chans.Keys, 1);
    assert id != 1 && (id > 2 ==> 2 in s1.chans.Keys);
    var s2 := Advance(s1, Serve(CreateFresh));
    s := JoinUnprobed(s2);
  }

  lemma JoinUnprobed(s0: State) returns (s: State)
    requires Reachable(s0) && s0.cap == 0 && 7 in s0.named && s0.spc == FreshLock(7, 2)
    requires 2 in s0.chans && s0.chans[2] == READY
    ensures Reachable(s) && s.cap == 0 && 2 in s.chans && !Reserved(s.cap, s.chans[2])
  {
    SamePut(s0, 2, READY);
    assert s0.(spc := s0.spc) == s0;
    var ch1, pc1 := Act(s0, 2, READY, s0.spc, LockFresh);
    JoinRunning(s0, 2, ch1, 7, FromLobby);
    var full := ch1.(joinPool := ch1.joinPool + {7});
    assert full.joinPool == {7};
    s := With(s0.(spc := Settle(7, 2, FromLobby)), 2, full);
  }

  /** The reservation holds in every reachable state exactly for limits of at least 1. */
  lemma CapacityExactly(cap: nat)
    ensures (forall s, c :: Reachable(s) && s.cap == cap && c in s.chans ==> Reserved(cap, s.chans[c]))
            <==> cap >= 1
  {
    if cap == 0 {
      var s := ZeroLimitOverAdmits();
      assert !Reserved(cap, s.chans[2]);
    } else {
      forall s, c | Reachable(s) && s.cap == cap && c in s.chans ensures Reserved(cap, s.chans[c]) {
        var run, steps :| IsRun(run, steps) && run[|steps|] == s;
        CapacityReserved(run, steps, |steps|, c);
      }
    }
  }

  /** A worker that stamps 1 ms after the reaper sampled the clock has its channel destroyed at once. */
  lemma FreshStampIsDestroyed() returns (s: State)
    ensures Reachable(s) && Condemned(s, 1) && s.now - s.chans[1].emptySince == 0
  {
    FirstUserGone();
    var ch := READY.(stop := true, lock := ByWorker, pc := Stamping);
    var s0 := With(Empty(1, 1), 1, ch);
    var s1 := Advance(s0, Serve(SampleClock));
    assert s1.spc == Reaping(1000, {1});
    var s2 := Advance(s1, Time(1001));
    SamePut(s2, 1, ch);
    Turn(s2, 1, ch, Stamp, ch.(emptySince := 1001, pc := Unlocking));
    s := With(s2, 1, ch.(emptySince := 1001, pc := Unlocking));
    assert ClockSub(1000, 1001) == CLOCK_RANGE - 1;
  }

  /** A user joining a stopped channel can be stranded in its join pool. */
  lemma UserIsStranded() returns (s: State)
    ensures Reachable(s) && Stranded(s, 1) && 8 in s.chans[1].joinPool
  {
    FirstUserGone();
    var s0 := Empty(1, 1);
    var ch := READY.(stop := true, emptySince := 1000);
    Turn(s0, 1, READY.(stop := true, lock := ByWorker, pc := Stamping), Stamp, ch.(lock := ByWorker, pc := Unlocking));
    Turn(s0, 1, ch.(lock := ByWorker, pc := Unlocking), Unlock, ch.(pc := Broadcasting));
    assert ch.marked + {} == {};
    Turn(s0, 1, ch.(pc := Broadcasting), Broadcast({}), ch.(pc := Deleting({})));
    Turn(s0, 1, ch.(pc := Deleting({})), TickDone, ch);
    Turn(s0, 1, ch, Check, ch.(pc := Exited));
    var s1 := Advance(With(s0, 1, ch.(pc := Exited)), Serve(Accept(8)));
    var s2 := Advance(s1, Serve(LobbyJoin(8, 1)));
    assert s2.spc.todo == {};
    s := RestartTooLate(s2);
  }

  lemma RestartTooLate(s0: State) returns (s: State)
    requires Reachable(s0) && s0.cap == 1 && 8 in s0.named && 1 in s0.chans
    requires s0.spc == Probe(8, 1, {}, {})
    requires s0.chans[1] == READY.(stop := true, emptySince := 1000, pc := Exited)
    ensures Reachable(s) && Stranded(s, 1) && 8 in s.chans[1].joinPool
  {
    var ch := s0.chans[1];
    SamePut(s0, 1, ch);
    assert s0.(spc := s0.spc) == s0;
    var ch1, pc1 := Act(s0, 1, ch, s0.spc, ProbeLock);
    var ch2, pc2 := Act(s0, 1, ch1, pc1, Ping);
    var ch3, pc3 := Act(s0, 1, ch2, pc2, Join);
    s := CheckedTooEarly(s0, ch3);
  }

  lemma CheckedTooEarly(s0: State, ch: Chan) returns (s: State)
    requires Reachable(With(s0.(spc := AwaitWorker(8, 1, FromLobby)), 1, ch)) && ch.stop && ch.pc.Exited?
    ensures Reachable(s) && Stranded(s, 1) && 8 in s.chans[1].joinPool
  {
    var ch4, pc4 := Act(s0, 1, ch, AwaitWorker(8, 1, FromLobby), Restart);
    Turn(s0.(spc := pc4), 1, ch4, Check, ch4.(pc := Exited));
    var ch5, pc5 := Act(s0, 1, ch4.(pc := Exited), pc4, StoreRunning);
    var ch6, pc6 := Act(s0, 1, ch5, pc5, PushJoin);
    s := With(s0.(spc := pc6), 1, ch6);
  }

  /** Channel 2 has one client, whose worker reports its wish to switch to channel `dst`. */
  lemma AsksToSwitch(s: State, fd: Fd, c: ChId, dst: ChId)
    requires Reachable(With(s, c, READY.(clients := {fd}))) && c != dst
    ensures Reachable(With(s.(reports := s.reports + [Report(fd, c, dst)]), c, READY.(clients := {fd}, pc := Polling)))
  {
    var ch := READY.(clients := {fd}, pc := Polling);
    Turn(s, c, READY.(clients := {fd}), Check, ch);
    var s' := Advance(With(s, c, ch), Work(c, Ask(fd, dst)));
    assert s' == With(s.(reports := s.reports + [Report(fd, c, dst)]), c, ch);
  }

  /** A refusal whose error frame cannot be sent leaves the full channel locked with the server idle. */
  lemma RefusalLeavesLock() returns (s: State)
    ensures Reachable(s) && s.spc.Idle? && Stuck(s, 1)
  {
    Start(Empty(1, 1));
    var s1 := AdmitTo(Empty(1, 1), 7, 1);
    FirstTick(Empty(1, 1).(named := {7}), 7, 1);
    var s2 := With(Empty(1, 1).(named := {7}), 1, READY.(clients := {7}));
    var s3 := AdmitTo(s2, 8, 2);
    var s4 := s2.(named := s2.named + {8});
    FirstTick(s4, 8, 2);
    AsksToSwitch(s4, 8, 2, 1);
    s := RefusedWithoutReply(With(s4.(reports := [Report(8, 2, 1)]), 2, READY.(clients := {8}, pc := Polling)));
  }

  lemma RefusedWithoutReply(s0: State) returns (s: State)
    requires Reachable(s0) && s0.cap == 1 && s0.spc.Idle? && s0.reports == [Report(8, 2, 1)]
    requires 1 in s0.chans && s0.chans[1] == READY.(clients := {7}) && 2 in s0.chans
    ensures Reachable(s) && s.spc.Idle? && Stuck(s, 1)
  {
    var s1 := Advance(s0, Serve(Drain));
    var s2 := Advance(s1, Serve(TakeReport));
    assert s2.chans == s0.chans && s2.spc == SwitchLock(8, 2, 1);
    var ch := READY.(clients := {7});
    SamePut(s2, 1, ch);
    assert s2.(spc := s2.spc) == s2;
    var ch', pc' := Act(s2, 1, ch, s2.spc, LockTarget);
    assert |ch'.clients| == 1;
    s := Advance(With(s2.(spc := pc'), 1, ch'), Serve(PingTarget(false)));
  }

  /** If `accept` may return a descriptor that is in no tracker and no pool (state `b`) but that a queued
      switch report still names, the descriptor ends up in the lobby and in a channel tracker at once. */
  lemma StaleReportJoinsLobbyUser() returns (b: State, s: State)
    ensures Reachable(b) && Enabled(b, Serve(Accept(7))) && Report(7, 1, 2) in b.reports
    ensures forall c :: c in b.chans ==> !InTracker(b.chans[c], 7) && !InPool(b.chans[c], 7) && !InLeave(b.chans[c], 7)
    ensures Reachable(s) && 2 in s.chans && 7 in s.lobby && 7 in s.chans[2].clients
  {
    Start(Empty(1, 1));
    var s1 := AdmitTo(Empty(1, 1), 7, 1);
    var s0 := Empty(1, 1).(named := {7});
    FirstTick(s0, 7, 1);
    AsksToSwitch(s0, 7, 1, 2);
    LosesClient(s0.(reports := [] + [Report(7, 1, 2)]), 7, 1);
    assert s0.named - {7} == {};
    b := With(Empty(1, 1).(reports := [Report(7, 1, 2)]), 1, READY.(marked := {7}));
    s := ReusesDescriptor(b);
  }

  lemma ReusesDescriptor(s0: State) returns (s: State)
    requires s0 == With(Empty(1, 1).(reports := [Report(7, 1, 2)]), 1, READY.(marked := {7})) && Reachable(s0)
    ensures Reachable(s) && 2 in s.chans && 7 in s.lobby && 7 in s.chans[2].clients
  {
    var s1 := Advance(s0, Serve(Accept(7)));
    var s2 := Advance(s1, Serve(Drain));
    var s3 := Advance(s2, Serve(TakeReport));
    s := ServeStaleReport(s3);
  }

  lemma ServeStaleReport(s0: State) returns (s: State)
    requires Reachable(s0) && s0.cap == 1 && s0.spc == SwitchLock(7, 1, 2) && s0.lobby == {7} && 7 in s0.named
    requires 1 in s0.chans && 2 in s0.chans && s0.chans[2] == READY
    ensures Reachable(s) && 2 in s.chans && 7 in s.lobby && 7 in s.chans[2].clients
  {
    SamePut(s0, 2, READY);
    assert s0.(spc := SwitchLock(7, 1, 2)) == s0;
    SwitchIn(s0, 7, 1, 2);
    s := FinishStaleSwitch(With(s0.(spc := Settle(7, 2, FromChannel(1))), 2, READY.(lock := ByServer, joinPool := {7})));
  }

  lemma FinishStaleSwitch(s0: State) returns (s: State)
    requires Reachable(s0) && s0.cap == 1 && s0.spc == Settle(7, 2, FromChannel(1)) && s0.lobby == {7}
    requires 1 in s0.chans && 2 in s0.chans && s0.chans[2] == READY.(lock := ByServer, joinPool := {7})
    ensures Reachable(s) && 2 in s.chans && 7 in s.lobby && 7 in s.chans[2].clients
  {
    var s1 := Advance(s0, Serve(Finish));
    var s2 := Advance(s1, Serve(ReleaseLock));
    s := AddsLobbyUser(s2);
  }

  lemma AddsLobbyUser(s0: State) returns (s: State)
    requires Reachable(s0) && s0.cap == 1 && 2 in s0.chans && s0.chans[2] == READY.(joinPool := {7}) && 7 in s0.lobby
    ensures Reachable(s) && 2 in s.chans && 7 in s.lobby && 7 in s.chans[2].clients
  {
    var ch := READY.(joinPool := {7});
    SamePut(s0, 2, ch);
    Turn(s0, 2, ch, Check, ch.(pc := Polling));
    Turn(s0, 2, ch.(pc := Polling), Lock, READY.(lock := ByWorker, pc := Joining({7})));
    var added := READY.(lock := ByWorker, clients := {7}, pc := Joining({}));
    assert READY.clients + {7} == {7} && {7} - {7} == {};
    Turn(s0, 2, READY.(lock := ByWorker, pc := Joining({7})), Add(7), added);
    s := With(s0, 2, added);
  }

  /** An admitted switch into a channel that did not exist before. */
  lemma ServeSwitch(s0: State, fd: Fd, src: ChId, dst: ChId) returns (s: State)
    requires Reachable(s0) && s0.cap == 1 && fd in s0.named && src in s0.chans && dst !in s0.chans
    requires s0.spc.Consuming? && s0.batch != [] && s0.batch[0] == Report(fd, src, dst)
    ensures Reachable(s) && s.cap == 1 && s.named == s0.named && s.spc.Consuming? && s.batch == s0.batch[1..]
    ensures s.chans.Keys == s0.chans.Keys + {dst} && s.chans[dst] == READY.(joinPool := {fd})
    ensures forall k :: k in s0.chans && k != src ==> s.chans[k] == s0.chans[k]
  {
    var s1 := TakeSwitch(s0, fd, src, dst);
    SwitchIn(s1, fd, src, dst);
    s := FinishSwitch(s1, fd, src, dst);
  }

  /** From the taken report to the posted join. */
  lemma SwitchIn(s: State, fd: Fd, src: ChId, dst: ChId)
    requires Reachable(With(s.(spc := SwitchLock(fd, src, dst)), dst, READY)) && s.cap == 1 && fd in s.named
    ensures Reachable(With(s.(spc := Settle(fd, dst, FromChannel(src))), dst, READY.(lock := ByServer, joinPool := {fd})))
  {
    var ch1, pc1 := Act(s, dst, READY, SwitchLock(fd, src, dst), LockTarget);
    var ch2, pc2 := Act(s, dst, ch1, pc1, PingTarget(true));
    JoinRunning(s, dst, ch2, fd, FromChannel(src));
    assert ch2.(joinPool := ch2.joinPool + {fd}) == READY.(lock := ByServer, joinPool := {fd});
  }

  lemma TakeSwitch(s0: State, fd: Fd, src: ChId, dst: ChId) returns (s: State)
    requires Reachable(s0) && src in s0.chans && dst !in s0.chans
    requires s0.spc.Consuming? && s0.batch != [] && s0.batch[0] == Report(fd, src, dst)
    ensures s == s0.(batch := s0.batch[1..], chans := s0.chans[dst := READY], spc := SwitchLock(fd, src, dst))
    ensures Reachable(With(s.(spc := SwitchLock(fd, src, dst)), dst, READY))
  {
    s := Advance(s0, Serve(TakeReport));
    SamePut(s, dst, READY);
    assert s.(spc := SwitchLock(fd, src, dst)) == s;
  }

  lemma FinishSwitch(s1: State, fd: Fd, src: ChId, dst: ChId) returns (s: State)
    requires src in s1.chans && src != dst && fd in s1.named
    requires Reachable(With(s1.(spc := Settle(fd, dst, FromChannel(src))), dst, READY.(lock := ByServer, joinPool := {fd})))
    ensures Reachable(s) && s.cap == s1.cap && s.named == s1.named && s.spc.Consuming? && s.batch == s1.batch
    ensures s.chans.Keys == s1.chans.Keys + {dst} && s.chans[dst] == READY.(joinPool := {fd})
    ensures forall k :: k in s1.chans && k != src && k != dst ==> s.chans[k] == s1.chans[k]
  {
    var joined := READY.(lock := ByServer, joinPool := {fd});
    var s2 := Advance(With(s1.(spc := Settle(fd, dst, FromChannel(src))), dst, joined), Serve(Finish));
    s := Advance(s2, Serve(ReleaseLock));
  }

  /** The first tick of such a channel. */
  lemma Arrives(s0: State, fd: Fd, c: ChId) returns (s: State)
    requires Reachable(s0) && s0.cap == 1 && c in s0.chans && s0.chans[c] == READY.(joinPool := {fd})
    ensures Reachable(s) && s == With(s0, c, READY.(clients := {fd}))
  {
    SamePut(s0, c, READY.(joinPool := {fd}));
    FirstTick(s0, fd, c);
    s := With(s0, c, READY.(clients := {fd}));
  }

  /** A user that asks for two switches before the first one is served becomes a client of two channels. */
  lemma TwoSwitchesTwoChannels() returns (s: State)
    ensures Reachable(s) && 2 in s.chans && 3 in s.chans && 7 in s.chans[2].clients && 7 in s.chans[3].clients
  {
    Start(Empty(1, 1));
    var s1 := AdmitTo(Empty(1, 1), 7, 1);
    var s0 := Empty(1, 1).(named := {7});
    FirstTick(s0, 7, 1);
    AsksToSwitch(s0, 7, 1, 2);
    var polling := READY.(clients := {7}, pc := Polling);
    var two := Advance(With(s0.(reports := [] + [Report(7, 1, 2)]), 1, polling), Work(1, Ask(7, 3)));
    s := BothServed(two);
  }

  lemma BothServed(s0: State) returns (s: State)
    requires Reachable(s0) && s0.cap == 1 && 7 in s0.named && s0.spc.Idle? && s0.chans.Keys == {1}
    requires s0.reports == [Report(7, 1, 2), Report(7, 1, 3)]
    ensures Reachable(s) && 2 in s.chans && 3 in s.chans && 7 in s.chans[2].clients && 7 in s.chans[3].clients
  {
    var s1 := Advance(s0, Serve(Drain));
    var s2 := ServeSwitch(s1, 7, 1, 2);
    assert s2.batch == [Report(7, 1, 3)];
    var s3 := ServeSwitch(s2, 7, 1, 3);
    var s4 := Arrives(s3, 7, 2);
    s := Arrives(s4, 7, 3);
  }
}
