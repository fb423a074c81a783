/** What the refinement to the per-user automaton means in the system's own terms. */
module ProtocolNoLostUser {
  import opened ChannelProtocol
  import opened ProtocolSafety
  import opened ProtocolRuns
  import opened ProtocolUsers

  /** The user is in a channel's tracker, its join pool, or on the way from one to the other. */
  predicate Holding(ch: Chan, fd: Fd) {
    InTracker(ch, fd) || InPool(ch, fd)
  }

  /** No user is lost: in every interleaving exactly the descriptors with a user name (accepted and not
      yet disconnected) are in the lobby, a tracker or a join pool. */
  lemma NoLostUser(run: seq<State>, steps: seq<Step>, n: nat, fd: Fd)
    requires PoliteRun(run, steps) && n <= |steps|
    ensures fd in run[n].named <==>
              fd in run[n].lobby || exists c :: c in run[n].chans && Holding(run[n].chans[c], fd)
  {
    RunRefines(run, steps, n);
    var s, st := run[n], StagesAt(run, steps, n);
    var g := At(st, fd);
    assert PcMatchesUser(s.spc, fd, g);
    if c :| c in s.chans && Holding(s.chans[c], fd) { assert ChanMatches(c, s.chans[c], st); }
    match g
    case Member(c) => TrackedIsThere(s.chans, c, fd, st);
    case Pending(c) => TrackedIsThere(s.chans, c, fd, st);
    case Posted(c, _) => TrackedIsThere(s.chans, c, fd, st);
    case Moving(c, _, _) => TrackedIsThere(s.chans, c, fd, st);
    case _ =>
  }

  /** A leave is never resolved before the user is safe elsewhere: an unresolved leave in one channel
      means the user is in another channel's join pool or tracker. */
  lemma LeaveMeansElsewhere(run: seq<State>, steps: seq<Step>, n: nat, c: ChId, fd: Fd)
    requires PoliteRun(run, steps) && n <= |steps| && c in run[n].chans && InLeave(run[n].chans[c], fd)
    ensures exists d :: d != c && d in run[n].chans && Holding(run[n].chans[d], fd)
  {
    RunRefines(run, steps, n);
    var s, st := run[n], StagesAt(run, steps, n);
    assert ChanMatches(c, s.chans[c], st) && PcMatchesUser(s.spc, fd, At(st, fd));
    assert LeavingAt(At(st, fd), c);
    TrackedIsThere(s.chans, At(st, fd).dst, fd, st);
  }

  ghost predicate InExactly(s: State, fd: Fd, c: ChId) {
    c in s.chans && forall d :: d in s.chans ==> (InTracker(s.chans[d], fd) <==> d == c)
  }

  /** A channel user with nothing outstanding is in exactly one tracker. */
  lemma SettledInOneTracker(run: seq<State>, steps: seq<Step>, n: nat, fd: Fd)
    requires PoliteRun(run, steps) && n <= |steps|
    requires fd in run[n].named && fd !in run[n].lobby && !Busy(run[n], fd)
    ensures exists c :: InExactly(run[n], fd, c)
  {
    RunRefines(run, steps, n);
    var s, st := run[n], StagesAt(run, steps, n);
    var g := At(st, fd);
    assert PcMatchesUser(s.spc, fd, g);
    if g.Posted? || g.Moving? { InFlightIsBusy(s, fd, st); }
    if g.Pending? { TrackedIsThere(s.chans, g.dst, fd, st); }
    assert g.Member?;
    MemberIsInExactly(s, fd, g.at, st);
  }

  lemma MemberIsInExactly(s: State, fd: Fd, c: ChId, st: Stages)
    requires Matches(s, st) && At(st, fd) == Member(c)
    ensures InExactly(s, fd, c)
  {
    TrackedIsThere(s.chans, c, fd, st);
    forall d | d in s.chans ensures InTracker(s.chans[d], fd) <==> d == c {
      assert ChanMatches(d, s.chans[d], st);
    }
  }

  /** From the moment the join is recorded the automaton can only end in the target. */
  predicate OnTheWay(g: Stage, src: ChId, dst: ChId) {
    g == Posted(src, dst) || g == Moving(src, dst, false) || g == Moving(src, dst, true) || g == Pending(dst)
  }

  lemma ArrivesIdle(s: State, step: Step, st: Stages, st': Stages, fd: Fd, src: ChId, dst: ChId)
    requires Enabled(s, step) && Polite(s, step) && Matches(s, st) && Matches(Apply(s, step), st')
    requires OnTheWay(At(st, fd), src, dst) && Busy(s, fd) && At(st', fd) == Member(dst)
    ensures !Busy(Apply(s, step), fd)
  {
    var s' := Apply(s, step);
    forall r | Outstanding(s', r) ensures r.fd != fd {
      NewReportsAreAsked(s, step, r);
      assert Outstanding(s, r) ==> ReportOk(s, st, r);
    }
    forall c | c in s'.chans ensures !InPool(s'.chans[c], fd) && !InLeave(s'.chans[c], fd) {
      assert ChanMatches(c, s'.chans[c], st');
    }
  }

  lemma WayGoesToTarget(g: Stage, g': Stage, src: ChId, dst: ChId)
    requires OnTheWay(g, src, dst) && (g == g' || Move(g, g'))
    ensures OnTheWay(g', src, dst) || g' == Member(dst)
  {
  }

  lemma {:induction false} WayStep(run: seq<State>, steps: seq<Step>, j: nat, fd: Fd, src: ChId, dst: ChId)
    requires PoliteRun(run, steps) && j < |steps| && Busy(run[j], fd)
    requires OnTheWay(At(StagesAt(run, steps, j), fd), src, dst)
    ensures var g := At(StagesAt(run, steps, j + 1), fd);
            OnTheWay(g, src, dst) || (g == Member(dst) && !Busy(run[j + 1], fd))
  {
    RunRefines(run, steps, j);
    RunRefines(run, steps, j + 1);
    var st, st' := StagesAt(run, steps, j), StagesAt(run, steps, j + 1);
    WayGoesToTarget(At(st, fd), At(st', fd), src, dst);
    if At(st', fd) == Member(dst) { ArrivesIdle(run[j], steps[j], st, st', fd, src, dst); }
  }

  lemma {:induction false} WayStart(run: seq<State>, steps: seq<Step>, i: nat, fd: Fd, src: ChId, dst: ChId)
    requires PoliteRun(run, steps) && i <= |steps| && run[i].spc == Settle(fd, dst, FromChannel(src))
    ensures OnTheWay(At(StagesAt(run, steps, i), fd), src, dst)
  {
    RunRefines(run, steps, i);
    assert PcMatchesUser(run[i].spc, fd, At(StagesAt(run, steps, i), fd));
  }

  lemma {:induction false} StaysOnTheWay(run: seq<State>, steps: seq<Step>, i: nat, j: nat, fd: Fd, src: ChId, dst: ChId)
    requires PoliteRun(run, steps) && i <= j <= |steps| && run[i].spc == Settle(fd, dst, FromChannel(src))
    requires forall k :: i <= k < j ==> Busy(run[k], fd)
    ensures var g := At(StagesAt(run, steps, j), fd);
            OnTheWay(g, src, dst) || (g == Member(dst) && !Busy(run[j], fd))
    decreases j
  {
    if i == j {
      WayStart(run, steps, i, fd, src, dst);
    } else {
      StaysOnTheWay(run, steps, i, j - 1, fd, src, dst);
      WayStep(run, steps, j - 1, fd, src, dst);
    }
  }

  lemma OnTheWayIsBusy(s: State, st: Stages, fd: Fd, src: ChId, dst: ChId)
    requires Matches(s, st) && OnTheWay(At(st, fd), src, dst)
    ensures Busy(s, fd)
  {
    if At(st, fd).Pending? {
      TrackedIsThere(s.chans, dst, fd, st);
      assert InPool(s.chans[dst], fd);
    } else {
      InFlightIsBusy(s, fd, st);
    }
  }

  /** A switch ends in the target only: if the server has recorded the join of `fd` into `dst` at state
      `i`, then at the first later state where nothing of `fd` is outstanding, `dst` is the one channel
      that tracks it. */
  lemma SwitchEndsInTarget(run: seq<State>, steps: seq<Step>, i: nat, j: nat, fd: Fd, src: ChId, dst: ChId)
    requires PoliteRun(run, steps) && i <= j <= |steps| && run[i].spc == Settle(fd, dst, FromChannel(src))
    requires (forall k :: i <= k < j ==> Busy(run[k], fd)) && !Busy(run[j], fd)
    ensures InExactly(run[j], fd, dst)
  {
    StaysOnTheWay(run, steps, i, j, fd, src, dst);
    RunRefines(run, steps, j);
    var st := StagesAt(run, steps, j);
    if OnTheWay(At(st, fd), src, dst) { OnTheWayIsBusy(run[j], st, fd, src, dst); }
    MemberIsInExactly(run[j], fd, dst, st);
  }

  /** A refused switch changes no membership, and leaves the user in its source channel only. */
  lemma RefusalChangesNothing(run: seq<State>, steps: seq<Step>, n: nat, sent: bool)
    requires PoliteRun(run, steps) && n < |steps| && steps[n] == Serve(PingTarget(sent))
    requires !HasSlot(run[n].cap, run[n].chans[run[n].spc.at])
    ensures InExactly(run[n + 1], run[n].spc.fd, run[n].spc.src)
    ensures run[n + 1].chans.Keys == run[n].chans.Keys
    ensures forall c, fd :: c in run[n].chans ==>
              (Holding(run[n + 1].chans[c], fd) <==> Holding(run[n].chans[c], fd))
              && (InLeave(run[n + 1].chans[c], fd) <==> InLeave(run[n].chans[c], fd))
  {
    RunRefines(run, steps, n);
    RunRefines(run, steps, n + 1);
    var s, st := run[n], StagesAt(run, steps, n);
    assert Handling(s.spc, Report(s.spc.fd, s.spc.src, s.spc.at));
    assert Outstanding(s, Report(s.spc.fd, s.spc.src, s.spc.at));
    assert StagesAt(run, steps, n + 1) == st;
    MemberIsInExactly(run[n + 1], s.spc.fd, s.spc.src, st);
  }
}
