/** No user is lost in a switch. Under the hypotheses that a client has at most one switch outstanding,
    does not disconnect during it, and that `accept` returns descriptors nothing refers to any more,
    the protocol refines one small automaton per user. */
module ProtocolUsers {
  import opened ChannelProtocol
  import opened ProtocolSafety
  import opened ProtocolRuns

  // ---------------------------------------------------------------- what the state says about a user

  function Departing(ch: Chan): set<Fd> {
    if ch.pc.Leaving? then ch.pc.todo else {}
  }

  predicate InTracker(ch: Chan, fd: Fd) { fd in ch.clients }

  predicate InPool(ch: Chan, fd: Fd) { fd in ch.joinPool || fd in Admitted(ch) }

  predicate InLeave(ch: Chan, fd: Fd) { fd in ch.leavePool || fd in Departing(ch) }

  /** `resolve_deletion` will still close `fd` in this tick; the next tick starts by clearing the set. */
  predicate IsMarked(ch: Chan, fd: Fd) {
    match ch.pc
    case Deleting(todo) => fd in todo
    case LoopCheck => false
    case Exited => false
    case _ => fd in ch.marked
  }

  /** The switch report the server is working on, until the join is in the target's pool. */
  predicate Handling(pc: ServerPc, r: Report) {
    match pc
    case SwitchLock(fd, src, at) => r == Report(fd, src, at)
    case SwitchPing(fd, src, at) => r == Report(fd, src, at)
    case AtJoin(fd, at, org) => org.FromChannel? && r == Report(fd, org.src, at)
    case AwaitWorker(fd, at, org) => org.FromChannel? && r == Report(fd, org.src, at)
    case ClearStop(fd, at, org) => org.FromChannel? && r == Report(fd, org.src, at)
    case Emplace(fd, at, org) => org.FromChannel? && r == Report(fd, org.src, at)
    case _ => false
  }

  ghost predicate Outstanding(s: State, r: Report) {
    r in s.reports || r in s.batch || Handling(s.spc, r)
  }

  /** A switch of `fd` is outstanding, or a pool entry for it is unresolved. */
  ghost predicate Busy(s: State, fd: Fd) {
    || (exists r :: Outstanding(s, r) && r.fd == fd)
    || (exists c :: c in s.chans && (InPool(s.chans[c], fd) || InLeave(s.chans[c], fd)))
  }

  ghost predicate Unreferenced(s: State, fd: Fd) {
    && fd !in s.lobby
    && (forall r :: Outstanding(s, r) ==> r.fd != fd)
    && (forall c :: c in s.chans ==>
          var ch := s.chans[c];
          !InTracker(ch, fd) && !InPool(ch, fd) && !InLeave(ch, fd) && !IsMarked(ch, fd))
  }

  /** The hypotheses about clients and `accept`, one step at a time. */
  ghost predicate Polite(s: State, step: Step) {
    match step
    case Serve(a) => a.Accept? ==> Unreferenced(s, a.fd)
    case Work(c, w) =>
      c in s.chans &&
      (match w
       case Ask(fd, _) => !Busy(s, fd) && fd !in s.chans[c].marked
       case Mark(fd) => !Busy(s, fd)
       case Broadcast(failed) => forall fd :: fd in failed ==> !Busy(s, fd)
       case _ => true)
    case _ => true
  }

  lemma ServerHandlesQueued(s: State, a: ServerStep, r: Report)
    requires ServerEnabled(s, a) && Handling(ServerApply(s, a).spc, r)
    ensures Handling(s.spc, r) || r in s.batch
  {
  }

  lemma ServerAddsNoReport(s: State, a: ServerStep, r: Report)
    requires ServerEnabled(s, a) && Outstanding(ServerApply(s, a), r)
    ensures Outstanding(s, r)
  {
    if Handling(ServerApply(s, a).spc, r) { ServerHandlesQueued(s, a, r); }
  }

  lemma NewReportsAreAsked(s: State, step: Step, r: Report)
    requires Enabled(s, step) && Outstanding(Apply(s, step), r)
    ensures Outstanding(s, r) || (step.Work? && step.w == Ask(r.fd, r.dst))
  {
    if step.Serve? { ServerAddsNoReport(s, step.a, r); }
  }

  // ---------------------------------------------------------------- the per-user automaton

  datatype Stage =
    | Absent
    | InLobby
    | Entering(dst: ChId)                          // in the lobby and in a join pool
    | Pending(dst: ChId)                           // in one join pool only
    | Member(at: ChId)                             // in one tracker only
    | Posted(src: ChId, dst: ChId)                 // in the source tracker and the target pool
    | Moving(src: ChId, dst: ChId, joined: bool)   // the leave is posted; joined: already in the target tracker

  predicate TrackedAt(g: Stage, c: ChId) {
    match g
    case Member(at) => c == at
    case Posted(src, _) => c == src
    case Moving(src, dst, joined) => c == src || (joined && c == dst)
    case _ => false
  }

  predicate PooledAt(g: Stage, c: ChId) {
    match g
    case Entering(dst) => c == dst
    case Pending(dst) => c == dst
    case Posted(_, dst) => c == dst
    case Moving(_, dst, joined) => !joined && c == dst
    case _ => false
  }

  predicate LeavingAt(g: Stage, c: ChId) {
    g.Moving? && c == g.src
  }

  /** The moves of the automaton. */
  predicate Move(a: Stage, b: Stage) {
    match a
    case Absent => b == InLobby
    case InLobby => b == Absent || b.Entering?
    case Entering(d) => b == Pending(d)
    case Pending(d) => b == Member(d)
    case Member(c) => b == Absent || (b.Posted? && b.src == c && b.dst != c)
    case Posted(c, d) => b == Moving(c, d, false)
    case Moving(c, d, joined) => if joined then b == Member(d) else b == Moving(c, d, true) || b == Pending(d)
  }

  type Stages = map<Fd, Stage>

  function At(st: Stages, fd: Fd): Stage {
    if fd in st then st[fd] else Absent
  }

  // ---------------------------------------------------------------- the refinement relation

  ghost predicate ChanMatches(c: ChId, ch: Chan, st: Stages) {
    forall fd ::
      && (InTracker(ch, fd) <==> TrackedAt(At(st, fd), c))
      && (InPool(ch, fd) <==> PooledAt(At(st, fd), c))
      && (InLeave(ch, fd) <==> LeavingAt(At(st, fd), c))
      && !(fd in ch.leavePool && fd in Departing(ch))
      && (IsMarked(ch, fd) ==> At(st, fd) == Member(c))
  }

  ghost predicate ChansMatch(chans: map<ChId, Chan>, st: Stages) {
    && (forall c :: c in chans ==> ChanMatches(c, chans[c], st))
    && (forall c, fd :: TrackedAt(At(st, fd), c) || PooledAt(At(st, fd), c) ==> c in chans)
  }

  ghost predicate LobbyMatches(s: State, st: Stages) {
    forall fd ::
      && (fd in s.lobby <==> At(st, fd).InLobby? || At(st, fd).Entering?)
      && (fd in s.named <==> !At(st, fd).Absent?)
  }

  /** What the server's program counter says about a user whose join it is recording. */
  ghost predicate PcMatchesUser(pc: ServerPc, fd: Fd, g: Stage) {
    && (g.Entering? ==> pc == Settle(fd, g.dst, FromLobby))
    && (g.Posted? ==> pc == Settle(fd, g.dst, FromChannel(g.src)))
    && (pc.Settle? && pc.fd == fd ==>
          g == if pc.org.FromLobby? then Entering(pc.at) else Posted(pc.org.src, pc.at))
    && (g.Moving? || g.Posted? ==> g.src != g.dst)
    && (Placing(pc, fd) && !pc.Settle? ==> g == InLobby)
  }

  ghost predicate PcMatches(pc: ServerPc, st: Stages) {
    forall fd :: PcMatchesUser(pc, fd, At(st, fd))
  }

  ghost predicate ReportOk(s: State, st: Stages, r: Report) {
    && At(st, r.fd) == Member(r.src) && r.src != r.dst && r.src in s.chans
    && !IsMarked(s.chans[r.src], r.fd)
  }

  ghost predicate OneEach(q: seq<Report>) {
    forall i, j :: 0 <= i < j < |q| ==> q[i].fd != q[j].fd
  }

  ghost predicate ReportsMatch(s: State, st: Stages) {
    && (forall r :: Outstanding(s, r) ==> ReportOk(s, st, r))
    && OneEach(s.batch + s.reports)
    && (forall r, q :: Handling(s.spc, r) && (q in s.batch || q in s.reports) ==> r.fd != q.fd)
  }

  ghost predicate Matches(s: State, st: Stages) {
    ChansMatch(s.chans, st) && LobbyMatches(s, st) && PcMatches(s.spc, st) && ReportsMatch(s, st)
  }

  /** The automaton's side of one step. */
  function NextStages(s: State, step: Step, st: Stages): Stages
    requires Enabled(s, step)
  {
    match step
    case Time(_) => st
    case Work(c, w) =>
      (match w
       case Add(fd) =>
         st[fd := if At(st, fd).Moving? then Moving(At(st, fd).src, c, true) else Member(c)]
       case Drop(fd) =>
         if At(st, fd).Moving? then
           st[fd := if At(st, fd).joined then Member(At(st, fd).dst) else Pending(At(st, fd).dst)]
         else st
       case Delete(fd) => st[fd := Absent]
       case _ => st)
    case Serve(a) =>
      (match a
       case Accept(fd) => if |s.lobby| < s.lobbyCap && fd !in s.lobby then st[fd := InLobby] else st
       case LobbyDrop(fd) => st[fd := Absent]
       case PushJoin =>
         st[s.spc.fd := if s.spc.org.FromLobby? then Entering(s.spc.at) else Posted(s.spc.org.src, s.spc.at)]
       case Finish =>
         st[s.spc.fd := if s.spc.org.FromLobby? then Pending(s.spc.at) else Moving(s.spc.org.src, s.spc.at, false)]
       case _ => st)
  }

  // ---------------------------------------------------------------- worker steps

  /** A stage change that no channel but `c` can see. */
  ghost predicate LocalChange(a: Stage, b: Stage, c: ChId) {
    forall d :: d != c ==>
      (TrackedAt(a, d) <==> TrackedAt(b, d)) && (PooledAt(a, d) <==> PooledAt(b, d))
      && (LeavingAt(a, d) <==> LeavingAt(b, d))
  }

  lemma InFlightIsBusy(s: State, fd: Fd, st: Stages)
    requires Matches(s, st) && (At(st, fd).Posted? || At(st, fd).Moving?)
    ensures Busy(s, fd)
  {
    var g := At(st, fd);
    if g.Posted? {
      assert PooledAt(g, g.dst);
      assert InPool(s.chans[g.dst], fd);
    } else {
      assert TrackedAt(g, g.src);
      assert InLeave(s.chans[g.src], fd);
    }
  }

  lemma IdleIsMember(s: State, c: ChId, fd: Fd, st: Stages)
    requires Matches(s, st) && c in s.chans && InTracker(s.chans[c], fd) && !Busy(s, fd)
    ensures At(st, fd) == Member(c)
  {
    assert TrackedAt(At(st, fd), c);
    if At(st, fd).Posted? || At(st, fd).Moving? { InFlightIsBusy(s, fd, st); }
  }

  /** While a join is being recorded the server holds the lock of that channel. */
  lemma RecordingIsLocked(s: State, fd: Fd, st: Stages)
    requires Inv(s) && Matches(s, st) && (At(st, fd).Entering? || At(st, fd).Posted?)
    ensures At(st, fd).dst in s.chans && s.chans[At(st, fd).dst].lock.ByServer?
  {
    var g := At(st, fd);
    assert PcMatchesUser(s.spc, fd, g);
    assert Holds(s.spc, g.dst);
  }

  lemma AddedIsSettled(s: State, c: ChId, fd: Fd, st: Stages)
    requires Inv(s) && Matches(s, st) && c in s.chans && fd in Admitted(s.chans[c])
    ensures At(st, fd) == Pending(c) || (At(st, fd).Moving? && At(st, fd).dst == c && !At(st, fd).joined)
  {
    assert InPool(s.chans[c], fd) && PooledAt(At(st, fd), c);
    if At(st, fd).Entering? || At(st, fd).Posted? { RecordingIsLocked(s, fd, st); }
  }

  /** After a worker step the channel's own sets still say what the automaton says. */
  ghost predicate WorkMatches(s: State, c: ChId, w: WorkerStep, st: Stages)
    requires Enabled(s, Work(c, w))
  {
    ChanMatches(c, WorkerApply(s.cap, s.now, s.chans[c], w), NextStages(s, Work(c, w), st))
  }

  lemma AddMatches(s: State, c: ChId, fd: Fd, st: Stages)
    requires Inv(s) && s.cap >= 1 && Enabled(s, Work(c, Add(fd))) && Matches(s, st)
    ensures WorkMatches(s, c, Add(fd), st)
  {
    var ch := s.chans[c];
    var ch' := WorkerApply(s.cap, s.now, ch, Add(fd));
    var st' := NextStages(s, Work(c, Add(fd)), st);
    AddKeepsBudget(s.cap, ch.clients, ch.pc.todo, fd);
    AddedIsSettled(s, c, fd, st);
    assert ChanMatches(c, ch, st);
    assert forall f :: f != fd ==> At(st', f) == At(st, f);
    assert forall f :: f != fd ==> (InPool(ch', f) <==> InPool(ch, f)) && (InTracker(ch', f) <==> InTracker(ch, f));
  }

  lemma DropMatches(s: State, c: ChId, fd: Fd, st: Stages)
    requires Inv(s) && Enabled(s, Work(c, Drop(fd))) && Matches(s, st)
    ensures WorkMatches(s, c, Drop(fd), st)
    ensures At(st, fd).Moving? && At(st, fd).src == c
  {
    var ch := s.chans[c];
    var ch' := WorkerApply(s.cap, s.now, ch, Drop(fd));
    var st' := NextStages(s, Work(c, Drop(fd)), st);
    assert ChanMatches(c, ch, st);
    assert InLeave(ch, fd) && LeavingAt(At(st, fd), c);
    assert At(st, fd).dst != c;
    assert !TrackedAt(At(st', fd), c) && !PooledAt(At(st', fd), c) && !LeavingAt(At(st', fd), c);
    assert forall f :: f != fd ==> At(st', f) == At(st, f);
    assert forall f :: f != fd ==> (InLeave(ch', f) <==> InLeave(ch, f));
  }

  lemma DeleteMatches(s: State, c: ChId, fd: Fd, st: Stages)
    requires Enabled(s, Work(c, Delete(fd))) && Matches(s, st)
    ensures WorkMatches(s, c, Delete(fd), st) && At(st, fd) == Member(c)
  {
    var ch := s.chans[c];
    var ch' := WorkerApply(s.cap, s.now, ch, Delete(fd));
    var st' := NextStages(s, Work(c, Delete(fd)), st);
    assert ChanMatches(c, ch, st);
    assert IsMarked(ch, fd);
    assert forall f :: f != fd ==> At(st', f) == At(st, f);
    assert forall f :: f != fd ==> (IsMarked(ch', f) <==> IsMarked(ch, f)) && (InTracker(ch', f) <==> InTracker(ch, f));
    assert forall f :: (InPool(ch', f) <==> InPool(ch, f)) && (InLeave(ch', f) <==> InLeave(ch, f));
  }

  lemma MarkingMatches(s: State, c: ChId, w: WorkerStep, st: Stages)
    requires (w.Mark? || w.Broadcast?) && Enabled(s, Work(c, w)) && Polite(s, Work(c, w)) && Matches(s, st)
    ensures WorkMatches(s, c, w, st)
  {
    assert ChanMatches(c, s.chans[c], st);
    forall fd | if w.Mark? then fd == w.fd else fd in w.failed
      ensures At(st, fd) == Member(c)
    {
      assert InTracker(s.chans[c], fd);
      IdleIsMember(s, c, fd, st);
    }
  }

  lemma QuietStepMatches(s: State, c: ChId, w: WorkerStep, st: Stages)
    requires !w.Add? && !w.Drop? && !w.Delete? && !w.Mark? && !w.Broadcast?
    requires Inv(s) && Enabled(s, Work(c, w)) && Matches(s, st)
    ensures WorkMatches(s, c, w, st)
  {
    assert ChanMatches(c, s.chans[c], st);
  }

  lemma WorkChan(s: State, c: ChId, w: WorkerStep, st: Stages)
    requires Inv(s) && s.cap >= 1 && Enabled(s, Work(c, w)) && Polite(s, Work(c, w)) && Matches(s, st)
    ensures WorkMatches(s, c, w, st)
  {
    match w
    case Add(fd) => AddMatches(s, c, fd, st);
    case Drop(fd) => DropMatches(s, c, fd, st);
    case Delete(fd) => DeleteMatches(s, c, fd, st);
    case Mark(_) => MarkingMatches(s, c, w, st);
    case Broadcast(_) => MarkingMatches(s, c, w, st);
    case _ => QuietStepMatches(s, c, w, st);
  }

  /** The user a worker step moves in the automaton, if it moves one. */
  lemma WorkMoves(s: State, c: ChId, w: WorkerStep, st: Stages, fd: Fd)
    requires Inv(s) && s.cap >= 1 && Enabled(s, Work(c, w)) && Matches(s, st)
    ensures var a, b := At(st, fd), At(NextStages(s, Work(c, w), st), fd);
            (a == b || Move(a, b)) && LocalChange(a, b, c)
            && (a != b ==> !a.Absent? && !a.InLobby? && !a.Entering? && !a.Posted?)
            && (a != b ==> !b.InLobby? && !b.Entering? && !b.Posted?)
            && (a != b && a.Member? ==> w == Delete(fd) && a == Member(c))
            && (b.Absent? && !a.Absent? ==> w == Delete(fd))
  {
    assert ChanMatches(c, s.chans[c], st);
    match w
    case Add(f) => AddedIsSettled(s, c, f, st);
    case Drop(f) => DropMatches(s, c, f, st);
    case Delete(f) => DeleteMatches(s, c, f, st);
    case _ =>
  }

  // ---------------------------------------------------------------- a whole worker step

  lemma OthersMatch(chans: map<ChId, Chan>, c: ChId, after: Chan, st: Stages, st': Stages)
    requires ChansMatch(chans, st) && c in chans && ChanMatches(c, after, st')
    requires forall fd :: LocalChange(At(st, fd), At(st', fd), c)
    requires forall d, fd :: d in chans && d != c && IsMarked(chans[d], fd) ==> At(st', fd) == Member(d)
    ensures ChansMatch(chans[c := after], st')
  {
    forall d | d in chans && d != c ensures ChanMatches(d, chans[d], st') {
      assert ChanMatches(d, chans[d], st);
    }
    forall d, fd | TrackedAt(At(st', fd), d) || PooledAt(At(st', fd), d) ensures d in chans {
      assert LocalChange(At(st, fd), At(st', fd), c);
      assert d != c ==> TrackedAt(At(st, fd), d) || PooledAt(At(st, fd), d);
    }
  }

  lemma {:induction false} WorkKeepsChans(s: State, c: ChId, w: WorkerStep, st: Stages)
    requires Inv(s) && s.cap >= 1 && Enabled(s, Work(c, w)) && Polite(s, Work(c, w)) && Matches(s, st)
    ensures ChansMatch(Apply(s, Work(c, w)).chans, NextStages(s, Work(c, w), st))
  {
    var st' := NextStages(s, Work(c, w), st);
    WorkChan(s, c, w, st);
    forall fd ensures LocalChange(At(st, fd), At(st', fd), c) { WorkMoves(s, c, w, st, fd); }
    forall d, fd | d in s.chans && d != c && IsMarked(s.chans[d], fd) ensures At(st', fd) == Member(d) {
      assert ChanMatches(d, s.chans[d], st);
      WorkMoves(s, c, w, st, fd);
    }
    OthersMatch(s.chans, c, WorkerApply(s.cap, s.now, s.chans[c], w), st, st');
  }

  lemma WorkKeepsRest(s: State, c: ChId, w: WorkerStep, st: Stages)
    requires Inv(s) && s.cap >= 1 && Enabled(s, Work(c, w)) && Matches(s, st)
    ensures var s' := Apply(s, Work(c, w));
            LobbyMatches(s', NextStages(s, Work(c, w), st)) && PcMatches(s'.spc, NextStages(s, Work(c, w), st))
  {
    var s', st' := Apply(s, Work(c, w)), NextStages(s, Work(c, w), st);
    forall fd
      ensures (fd in s'.lobby <==> At(st', fd).InLobby? || At(st', fd).Entering?)
              && (fd in s'.named <==> !At(st', fd).Absent?)
    {
      WorkMoves(s, c, w, st, fd);
    }
    forall fd ensures PcMatchesUser(s.spc, fd, At(st', fd)) {
      assert PcMatchesUser(s.spc, fd, At(st, fd));
      WorkMoves(s, c, w, st, fd);
    }
  }

  lemma WorkKeepsReport(s: State, c: ChId, w: WorkerStep, st: Stages, r: Report)
    requires Inv(s) && s.cap >= 1 && Enabled(s, Work(c, w)) && Polite(s, Work(c, w)) && Matches(s, st)
    requires Outstanding(s, r)
    ensures ReportOk(Apply(s, Work(c, w)), NextStages(s, Work(c, w), st), r)
  {
    assert ReportOk(s, st, r);
    assert Busy(s, r.fd);
    WorkMoves(s, c, w, st, r.fd);
  }

  lemma WorkKeepsReports(s: State, c: ChId, w: WorkerStep, st: Stages)
    requires Inv(s) && s.cap >= 1 && Enabled(s, Work(c, w)) && Polite(s, Work(c, w)) && Matches(s, st)
    ensures ReportsMatch(Apply(s, Work(c, w)), NextStages(s, Work(c, w), st))
  {
    var s', st' := Apply(s, Work(c, w)), NextStages(s, Work(c, w), st);
    if w.Ask? { IdleIsMember(s, c, w.fd, st); }
    forall r | Outstanding(s', r) ensures ReportOk(s', st', r) {
      if Outstanding(s, r) {
        WorkKeepsReport(s, c, w, st, r);
      } else {
        assert w.Ask? && r == Report(w.fd, c, w.dst);
      }
    }
    if w.Ask? {
      assert forall r :: Outstanding(s, r) ==> r.fd != w.fd;
      assert forall r :: r in s.batch + s.reports ==> Outstanding(s, r);
      assert s'.batch + s'.reports == (s.batch + s.reports) + [Report(w.fd, c, w.dst)];
    }
  }

  lemma {:induction false} WorkKeepsMatches(s: State, c: ChId, w: WorkerStep, st: Stages)
    requires Inv(s) && s.cap >= 1 && Enabled(s, Work(c, w)) && Polite(s, Work(c, w)) && Matches(s, st)
    ensures Matches(Apply(s, Work(c, w)), NextStages(s, Work(c, w), st))
  {
    WorkKeepsChans(s, c, w, st);
    WorkKeepsRest(s, c, w, st);
    WorkKeepsReports(s, c, w, st);
  }

  // ---------------------------------------------------------------- server steps that move a user

  lemma TrackedIsThere(chans: map<ChId, Chan>, c: ChId, fd: Fd, st: Stages)
    requires ChansMatch(chans, st)
    ensures TrackedAt(At(st, fd), c) ==> c in chans && InTracker(chans[c], fd)
    ensures PooledAt(At(st, fd), c) ==> c in chans && InPool(chans[c], fd)
  {
    if c in chans { assert ChanMatches(c, chans[c], st); }
  }

  lemma UnreferencedIsAbsent(s: State, fd: Fd, st: Stages)
    requires Matches(s, st) && Unreferenced(s, fd) && s.spc.Idle?
    ensures At(st, fd) == Absent
  {
    var g := At(st, fd);
    assert PcMatchesUser(s.spc, fd, g);
    match g
    case Member(c) => TrackedIsThere(s.chans, c, fd, st);
    case Pending(c) => TrackedIsThere(s.chans, c, fd, st);
    case Moving(c, _, _) => TrackedIsThere(s.chans, c, fd, st);
    case _ =>
  }

  /** Changing one user's stage and one channel, consistently, keeps the match for every channel. */
  lemma MoveOne(chans: map<ChId, Chan>, c: ChId, after: Chan, st: Stages, fd: Fd, g: Stage)
    requires ChansMatch(chans, st) && c in chans
    requires LocalChange(At(st, fd), g, c) && ChanMatches(c, after, st[fd := g])
    requires forall d :: d in chans && d != c ==> !IsMarked(chans[d], fd)
    ensures ChansMatch(chans[c := after], st[fd := g])
  {
    var st' := st[fd := g];
    forall d | d in chans && d != c ensures ChanMatches(d, chans[d], st') {
      assert ChanMatches(d, chans[d], st);
    }
    forall d, f | TrackedAt(At(st', f), d) || PooledAt(At(st', f), d) ensures d in chans {
      assert d != c ==> TrackedAt(At(st, f), d) || PooledAt(At(st, f), d);
    }
  }

  lemma MoveOutside(chans: map<ChId, Chan>, st: Stages, fd: Fd, g: Stage)
    requires ChansMatch(chans, st)
    requires (At(st, fd).Absent? || At(st, fd).InLobby?) && (g.Absent? || g.InLobby?)
    ensures ChansMatch(chans, st[fd := g])
  {
    var st' := st[fd := g];
    forall d | d in chans ensures ChanMatches(d, chans[d], st') {
      assert ChanMatches(d, chans[d], st);
    }
    forall d, f | TrackedAt(At(st', f), d) || PooledAt(At(st', f), d) ensures d in chans {
      assert TrackedAt(At(st, f), d) || PooledAt(At(st, f), d);
    }
  }

  /** Reports that stay outstanding stay consistent when their users do not move. */
  lemma KeepReports(s: State, s': State, st: Stages, st': Stages)
    requires ReportsMatch(s, st) && s'.batch == s.batch && s'.reports == s.reports
    requires s.chans.Keys <= s'.chans.Keys
    requires forall r :: Handling(s'.spc, r) ==> Handling(s.spc, r)
    requires forall r :: Outstanding(s', r) && Outstanding(s, r) && ReportOk(s, st, r) ==>
               At(st', r.fd) == At(st, r.fd)
               && (IsMarked(s'.chans[r.src], r.fd) ==> IsMarked(s.chans[r.src], r.fd))
    ensures ReportsMatch(s', st')
  {
    forall r | Outstanding(s', r) ensures ReportOk(s', st', r) {
      assert Outstanding(s, r) && ReportOk(s, st, r);
    }
  }

  lemma {:induction false} AcceptMatches(s: State, fd: Fd, st: Stages)
    requires ServerEnabled(s, Accept(fd)) && Polite(s, Serve(Accept(fd))) && Matches(s, st)
    ensures Matches(ServerApply(s, Accept(fd)), NextStages(s, Serve(Accept(fd)), st))
    ensures At(st, fd) == Absent
  {
    UnreferencedIsAbsent(s, fd, st);
    MoveOutside(s.chans, st, fd, InLobby);
    KeepReports(s, ServerApply(s, Accept(fd)), st, NextStages(s, Serve(Accept(fd)), st));
  }

  lemma LobbyDropMatches(s: State, fd: Fd, st: Stages)
    requires ServerEnabled(s, LobbyDrop(fd)) && Matches(s, st)
    ensures Matches(ServerApply(s, LobbyDrop(fd)), NextStages(s, Serve(LobbyDrop(fd)), st))
    ensures At(st, fd) == InLobby
  {
    assert At(st, fd).InLobby? || At(st, fd).Entering?;
    MoveOutside(s.chans, st, fd, Absent);
    KeepReports(s, ServerApply(s, LobbyDrop(fd)), st, st[fd := Absent]);
  }

  lemma OnlyMembersAreMarked(chans: map<ChId, Chan>, fd: Fd, st: Stages)
    requires ChansMatch(chans, st) && !At(st, fd).Member?
    ensures forall d :: d in chans ==> !IsMarked(chans[d], fd)
  {
    forall d | d in chans ensures !IsMarked(chans[d], fd) { assert ChanMatches(d, chans[d], st); }
  }

  lemma MarkedOnlyWhereMember(chans: map<ChId, Chan>, c: ChId, fd: Fd, st: Stages)
    requires ChansMatch(chans, st) && At(st, fd) == Member(c)
    ensures forall d :: d in chans && IsMarked(chans[d], fd) ==> d == c
  {
    forall d | d in chans && IsMarked(chans[d], fd) ensures d == c { assert ChanMatches(d, chans[d], st); }
  }

  lemma PushChan(chans: map<ChId, Chan>, c: ChId, fd: Fd, org: Origin, st: Stages)
    requires ChansMatch(chans, st) && c in chans
    requires if org.FromLobby? then At(st, fd) == InLobby else At(st, fd) == Member(org.src) && org.src != c
    requires forall d :: d in chans ==> !IsMarked(chans[d], fd)
    ensures ChansMatch(chans[c := chans[c].(joinPool := chans[c].joinPool + {fd})],
                       st[fd := if org.FromLobby? then Entering(c) else Posted(org.src, c)])
  {
    var g := if org.FromLobby? then Entering(c) else Posted(org.src, c);
    var after := chans[c].(joinPool := chans[c].joinPool + {fd});
    assert ChanMatches(c, chans[c], st);
    assert InTracker(chans[c], fd) <==> TrackedAt(At(st, fd), c);
    assert InLeave(chans[c], fd) <==> LeavingAt(At(st, fd), c);
    var st' := st[fd := g];
    forall f
      ensures (InTracker(after, f) <==> TrackedAt(At(st', f), c)) && (InPool(after, f) <==> PooledAt(At(st', f), c))
              && (InLeave(after, f) <==> LeavingAt(At(st', f), c)) && !(f in after.leavePool && f in Departing(after))
              && (IsMarked(after, f) ==> At(st', f) == Member(c))
    {
      assert InPool(after, f) <==> InPool(chans[c], f) || f == fd;
      assert IsMarked(after, f) <==> IsMarked(chans[c], f);
      assert At(st', f) == if f == fd then g else At(st, f);
    }
    MoveOne(chans, c, after, st, fd, g);
  }

  lemma PostLeaveChan(chans: map<ChId, Chan>, src: ChId, dst: ChId, fd: Fd, st: Stages)
    requires ChansMatch(chans, st) && src in chans && src != dst && At(st, fd) == Posted(src, dst)
    ensures ChansMatch(chans[src := chans[src].(leavePool := chans[src].leavePool + {fd})],
                       st[fd := Moving(src, dst, false)])
  {
    var g := Moving(src, dst, false);
    var after := chans[src].(leavePool := chans[src].leavePool + {fd});
    assert ChanMatches(src, chans[src], st);
    assert TrackedAt(Posted(src, dst), src) && !LeavingAt(Posted(src, dst), src);
    assert !InLeave(chans[src], fd) && InTracker(chans[src], fd);
    var st' := st[fd := g];
    forall f
      ensures (InTracker(after, f) <==> TrackedAt(At(st', f), src)) && (InPool(after, f) <==> PooledAt(At(st', f), src))
              && (InLeave(after, f) <==> LeavingAt(At(st', f), src)) && !(f in after.leavePool && f in Departing(after))
              && (IsMarked(after, f) ==> At(st', f) == Member(src))
    {
      assert InLeave(after, f) <==> InLeave(chans[src], f) || f == fd;
      assert IsMarked(after, f) <==> IsMarked(chans[src], f);
      assert At(st', f) == if f == fd then g else At(st, f);
    }
    OnlyMembersAreMarked(chans, fd, st);
    MoveOne(chans, src, after, st, fd, g);
  }

  lemma LeaveLobbyChan(chans: map<ChId, Chan>, c: ChId, fd: Fd, st: Stages)
    requires ChansMatch(chans, st) && At(st, fd) == Entering(c)
    ensures ChansMatch(chans, st[fd := Pending(c)])
  {
    assert PooledAt(At(st, fd), c);
    assert ChanMatches(c, chans[c], st);
    OnlyMembersAreMarked(chans, fd, st);
    MoveOne(chans, c, chans[c], st, fd, Pending(c));
    assert chans[c := chans[c]] == chans;
  }

  lemma PushPc(pc: ServerPc, st: Stages, g: Stage)
    requires pc.Emplace? && PcMatches(pc, st) && (pc.org.FromChannel? ==> pc.org.src != pc.at)
    requires g == if pc.org.FromLobby? then Entering(pc.at) else Posted(pc.org.src, pc.at)
    ensures PcMatches(Settle(pc.fd, pc.at, pc.org), st[pc.fd := g])
  {
    var st', pc' := st[pc.fd := g], Settle(pc.fd, pc.at, pc.org);
    forall fd ensures PcMatchesUser(pc', fd, At(st', fd)) {
      assert PcMatchesUser(pc, fd, At(st, fd));
    }
  }

  lemma FinishPc(pc: ServerPc, st: Stages, g: Stage)
    requires pc.Settle? && PcMatches(pc, st) && (pc.org.FromChannel? ==> pc.org.src != pc.at)
    requires g == if pc.org.FromLobby? then Pending(pc.at) else Moving(pc.org.src, pc.at, false)
    ensures PcMatches(Release(pc.at, pc.org), st[pc.fd := g])
  {
    var st', pc' := st[pc.fd := g], Release(pc.at, pc.org);
    forall fd ensures PcMatchesUser(pc', fd, At(st', fd)) {
      assert PcMatchesUser(pc, fd, At(st, fd));
    }
  }

  lemma {:induction false} PushJoinMatches(s: State, st: Stages)
    requires ServerEnabled(s, PushJoin) && Matches(s, st)
    ensures Matches(ServerApply(s, PushJoin), NextStages(s, Serve(PushJoin), st))
    ensures Move(At(st, s.spc.fd), At(NextStages(s, Serve(PushJoin), st), s.spc.fd))
  {
    var fd, c, org := s.spc.fd, s.spc.at, s.spc.org;
    if org.FromChannel? {
      assert Handling(s.spc, Report(fd, org.src, c));
      assert ReportOk(s, st, Report(fd, org.src, c));
      MarkedOnlyWhereMember(s.chans, org.src, fd, st);
    } else {
      assert Placing(s.spc, fd) && PcMatchesUser(s.spc, fd, At(st, fd));
      OnlyMembersAreMarked(s.chans, fd, st);
    }
    PushChan(s.chans, c, fd, org, st);
    PushPc(s.spc, st, if org.FromLobby? then Entering(c) else Posted(org.src, c));
    PushJoinReports(s, st);
  }

  lemma PushJoinReports(s: State, st: Stages)
    requires ServerEnabled(s, PushJoin) && ReportsMatch(s, st) && PcMatches(s.spc, st)
    ensures ReportsMatch(ServerApply(s, PushJoin), NextStages(s, Serve(PushJoin), st))
  {
    var fd, org := s.spc.fd, s.spc.org;
    assert PcMatchesUser(s.spc, fd, At(st, fd));
    if org.FromChannel? { assert Handling(s.spc, Report(fd, org.src, s.spc.at)); }
    KeepReports(s, ServerApply(s, PushJoin), st, NextStages(s, Serve(PushJoin), st));
  }

  lemma FinishReports(s: State, st: Stages)
    requires ServerEnabled(s, Finish) && ReportsMatch(s, st) && PcMatches(s.spc, st) && s.spc.fd in s.named
    ensures ReportsMatch(ServerApply(s, Finish), NextStages(s, Serve(Finish), st))
  {
    assert PcMatchesUser(s.spc, s.spc.fd, At(st, s.spc.fd));
    KeepReports(s, ServerApply(s, Finish), st, NextStages(s, Serve(Finish), st));
  }

  lemma FinishMatches(s: State, st: Stages)
    requires ServerEnabled(s, Finish) && Matches(s, st)
    ensures Matches(ServerApply(s, Finish), NextStages(s, Serve(Finish), st))
    ensures Move(At(st, s.spc.fd), At(NextStages(s, Serve(Finish), st), s.spc.fd))
  {
    var fd, c := s.spc.fd, s.spc.at;
    assert PcMatchesUser(s.spc, fd, At(st, fd));
    if s.spc.org.FromChannel? {
      PostLeaveChan(s.chans, s.spc.org.src, c, fd, st);
      FinishPc(s.spc, st, Moving(s.spc.org.src, c, false));
    } else {
      LeaveLobbyChan(s.chans, c, fd, st);
      FinishPc(s.spc, st, Pending(c));
    }
    FinishReports(s, st);
  }

  // ---------------------------------------------------------------- server steps that move nobody

  ghost predicate SameUsers(a: Chan, b: Chan) {
    && a.clients == b.clients && a.joinPool == b.joinPool && a.leavePool == b.leavePool
    && Admitted(a) == Admitted(b) && Departing(a) == Departing(b)
    && forall fd :: IsMarked(b, fd) ==> IsMarked(a, fd)
  }

  lemma ReplaceSame(chans: map<ChId, Chan>, c: ChId, after: Chan, st: Stages)
    requires ChansMatch(chans, st) && c in chans && SameUsers(chans[c], after)
    ensures ChansMatch(chans[c := after], st)
  {
    assert ChanMatches(c, chans[c], st);
  }

  lemma CreateChannel(chans: map<ChId, Chan>, id: ChId, st: Stages)
    requires ChansMatch(chans, st)
    ensures ChansMatch(WithChannel(chans, id), st)
  {
    if id !in chans {
      forall fd ensures !TrackedAt(At(st, fd), id) && !PooledAt(At(st, fd), id) && !LeavingAt(At(st, fd), id) {
        TrackedIsThere(chans, id, fd, st);
      }
      assert ChanMatches(id, NEW_CHAN, st);
    }
  }

  lemma RemoveVacant(chans: map<ChId, Chan>, id: ChId, st: Stages)
    requires ChansMatch(chans, st) && id in chans && Vacant(chans[id])
    ensures ChansMatch(chans - {id}, st)
    ensures forall fd :: !TrackedAt(At(st, fd), id)
  {
    assert ChanMatches(id, chans[id], st);
    forall fd ensures !TrackedAt(At(st, fd), id) && !PooledAt(At(st, fd), id) {
      TrackedIsThere(chans, id, fd, st);
      assert !InTracker(chans[id], fd) && !InPool(chans[id], fd);
    }
  }

  predicate MovesNobody(a: ServerStep) {
    !a.Accept? && !a.LobbyDrop? && !a.PushJoin? && !a.Finish?
  }

  lemma SilentChans(s: State, a: ServerStep, st: Stages)
    requires ServerEnabled(s, a) && MovesNobody(a) && ChansMatch(s.chans, st)
    requires a.Destroy? ==> Vacant(s.chans[s.spc.id])
    ensures ChansMatch(ServerApply(s, a).chans, st)
  {
    match a
    case LobbyJoin(_, preferred) => CreateChannel(s.chans, preferred, st);
    case CreateFresh => CreateChannel(s.chans, FreshFrom(s.chans.Keys, 1), st);
    case TakeReport =>
      CreateChannel(s.chans, s.batch[0].src, st);
      CreateChannel(WithChannel(s.chans, s.batch[0].src), s.batch[0].dst, st);
    case Destroy => RemoveVacant(s.chans, s.spc.id, st);
    case ProbeLock => ReplaceSame(s.chans, s.spc.at, ServerApply(s, a).chans[s.spc.at], st);
    case Ping =>
      if !HasSlot(s.cap, s.chans[s.spc.at]) {
        ReplaceSame(s.chans, s.spc.at, ServerApply(s, a).chans[s.spc.at], st);
      }
    case LockFresh => ReplaceSame(s.chans, s.spc.at, ServerApply(s, a).chans[s.spc.at], st);
    case Restart => ReplaceSame(s.chans, s.spc.at, ServerApply(s, a).chans[s.spc.at], st);
    case StoreRunning => ReplaceSame(s.chans, s.spc.at, ServerApply(s, a).chans[s.spc.at], st);
    case ReleaseLock => ReplaceSame(s.chans, s.spc.at, ServerApply(s, a).chans[s.spc.at], st);
    case LockTarget => ReplaceSame(s.chans, s.spc.at, ServerApply(s, a).chans[s.spc.at], st);
    case PingTarget(sent) =>
      if !HasSlot(s.cap, s.chans[s.spc.at]) && sent {
        ReplaceSame(s.chans, s.spc.at, ServerApply(s, a).chans[s.spc.at], st);
      }
    case _ =>
  }

  /** A user the server is handling has a name, so `join_and_logging` does record the join. */
  lemma JoinerIsNamed(s: State, st: Stages)
    requires s.spc.AtJoin? && Matches(s, st)
    ensures s.spc.fd in s.named
  {
    var fd := s.spc.fd;
    if s.spc.org.FromLobby? {
      assert Placing(s.spc, fd) && PcMatchesUser(s.spc, fd, At(st, fd));
    } else {
      assert Handling(s.spc, Report(fd, s.spc.org.src, s.spc.at));
      assert Outstanding(s, Report(fd, s.spc.org.src, s.spc.at));
    }
  }

  lemma SilentPc(s: State, a: ServerStep, st: Stages)
    requires ServerEnabled(s, a) && MovesNobody(a) && LobbyMatches(s, st) && PcMatches(s.spc, st)
    requires a.Join? ==> s.spc.fd in s.named
    ensures LobbyMatches(ServerApply(s, a), st) && PcMatches(ServerApply(s, a).spc, st)
  {
    var pc' := ServerApply(s, a).spc;
    assert !s.spc.Settle? && !pc'.Settle?;
    forall fd ensures PcMatchesUser(pc', fd, At(st, fd)) {
      assert PcMatchesUser(s.spc, fd, At(st, fd));
      assert Placing(pc', fd) ==> Placing(s.spc, fd) || (a.LobbyJoin? && fd in s.lobby);
    }
  }

  lemma {:induction false} SilentReports(s: State, a: ServerStep, st: Stages)
    requires ServerEnabled(s, a) && MovesNobody(a) && ReportsMatch(s, st)
    requires !a.TakeReport? && !a.Drain? && !a.PingTarget? && !a.Destroy?
    ensures ReportsMatch(ServerApply(s, a), st)
  {
    KeepReports(s, ServerApply(s, a), st, st);
  }

  lemma TakeReportMatches(s: State, st: Stages)
    requires ServerEnabled(s, TakeReport) && ReportsMatch(s, st)
    ensures ReportsMatch(ServerApply(s, TakeReport), st)
  {
    var s', r := ServerApply(s, TakeReport), s.batch[0];
    assert s.batch == [r] + s'.batch;
    assert s.batch + s.reports == [r] + (s'.batch + s'.reports);
    assert OneEach(s'.batch + s'.reports) by {
      assert forall i :: 0 <= i < |s'.batch + s'.reports| ==> (s'.batch + s'.reports)[i] == (s.batch + s.reports)[i + 1];
    }
    forall q | q in s'.batch || q in s'.reports ensures r.fd != q.fd {
      assert q in s'.batch + s'.reports;
      var i :| 0 <= i < |s'.batch + s'.reports| && (s'.batch + s'.reports)[i] == q;
      assert (s.batch + s.reports)[i + 1].fd != (s.batch + s.reports)[0].fd;
    }
    forall q | Outstanding(s', q) ensures ReportOk(s', st, q) {
      assert Outstanding(s, q) && ReportOk(s, st, q);
    }
  }

  lemma DrainMatches(s: State, st: Stages)
    requires ServerEnabled(s, Drain) && ReportsMatch(s, st)
    ensures ReportsMatch(ServerApply(s, Drain), st)
  {
    var s' := ServerApply(s, Drain);
    assert s'.batch + s'.reports == s.reports;
    assert OneEach(s.reports) by {
      assert forall i :: 0 <= i < |s.reports| ==> s.reports[i] == (s.batch + s.reports)[|s.batch| + i];
    }
    forall q | Outstanding(s', q) ensures ReportOk(s', st, q) {
      assert Outstanding(s, q) && ReportOk(s, st, q);
    }
  }

  lemma PingTargetMatches(s: State, sent: bool, st: Stages)
    requires ServerEnabled(s, PingTarget(sent)) && ReportsMatch(s, st)
    ensures ReportsMatch(ServerApply(s, PingTarget(sent)), st)
  {
    var s' := ServerApply(s, PingTarget(sent));
    assert OneEach(s.reports) by {
      assert forall i :: 0 <= i < |s.reports| ==> s.reports[i] == (s.batch + s.reports)[|s.batch| + i];
    }
    assert [] + s.reports == s.reports;
    forall q | Outstanding(s', q) ensures ReportOk(s', st, q) {
      assert Outstanding(s, q) && ReportOk(s, st, q);
    }
  }

  lemma DestroyMatches(s: State, st: Stages)
    requires ServerEnabled(s, Destroy) && Matches(s, st) && Vacant(s.chans[s.spc.id])
    ensures ReportsMatch(ServerApply(s, Destroy), st)
  {
    var s' := ServerApply(s, Destroy);
    RemoveVacant(s.chans, s.spc.id, st);
    forall q | Outstanding(s', q) ensures ReportOk(s', st, q) {
      assert Outstanding(s, q) && ReportOk(s, st, q);
      assert TrackedAt(At(st, q.fd), q.src);
    }
  }

  lemma SilentMatches(s: State, a: ServerStep, st: Stages)
    requires Inv(s) && ServerEnabled(s, a) && MovesNobody(a) && Matches(s, st)
    ensures Matches(ServerApply(s, a), st)
  {
    if a.Join? { JoinerIsNamed(s, st); }
    SilentChans(s, a, st);
    SilentPc(s, a, st);
    match a
    case TakeReport => TakeReportMatches(s, st);
    case Drain => DrainMatches(s, st);
    case PingTarget(sent) => PingTargetMatches(s, sent, st);
    case Destroy => DestroyMatches(s, st);
    case _ => SilentReports(s, a, st);
  }

  // ---------------------------------------------------------------- the refinement

  ghost predicate Moved(st: Stages, st': Stages) {
    forall fd :: At(st, fd) == At(st', fd) || Move(At(st, fd), At(st', fd))
  }

  lemma ServeRefines(s: State, a: ServerStep, st: Stages)
    requires Inv(s) && ServerEnabled(s, a) && Polite(s, Serve(a)) && Matches(s, st)
    ensures Matches(ServerApply(s, a), NextStages(s, Serve(a), st))
    ensures Moved(st, NextStages(s, Serve(a), st))
  {
    if a.Accept? { AcceptMatches(s, a.fd, st); }
    else if a.LobbyDrop? { LobbyDropMatches(s, a.fd, st); }
    else if a.PushJoin? { PushJoinMatches(s, st); }
    else if a.Finish? { FinishMatches(s, st); }
    else { SilentMatches(s, a, st); }
  }

  lemma WorkRefines(s: State, c: ChId, w: WorkerStep, st: Stages)
    requires Inv(s) && s.cap >= 1 && Enabled(s, Work(c, w)) && Polite(s, Work(c, w)) && Matches(s, st)
    ensures Matches(Apply(s, Work(c, w)), NextStages(s, Work(c, w), st))
    ensures Moved(st, NextStages(s, Work(c, w), st))
  {
    WorkKeepsMatches(s, c, w, st);
    forall fd
      ensures var b := At(NextStages(s, Work(c, w), st), fd); At(st, fd) == b || Move(At(st, fd), b)
    {
      WorkMoves(s, c, w, st, fd);
    }
  }

  lemma TimeRefines(s: State, later: nat, st: Stages)
    requires Enabled(s, Time(later)) && Matches(s, st)
    ensures Matches(Apply(s, Time(later)), st)
  {
    KeepReports(s, Apply(s, Time(later)), st, st);
  }

  ghost predicate PoliteRun(run: seq<State>, steps: seq<Step>) {
    IsRun(run, steps) && run[0].cap >= 1 && forall i :: 0 <= i < |steps| ==> Polite(run[i], steps[i])
  }

  /** The automaton's states along a run. */
  ghost function StagesAt(run: seq<State>, steps: seq<Step>, n: nat): Stages
    requires IsRun(run, steps) && n <= |steps|
  {
    if n == 0 then map[] else NextStages(run[n - 1], steps[n - 1], StagesAt(run, steps, n - 1))
  }

  /** Along a polite run every user follows the automaton, and the system's sets are exactly what the
      automaton's states say. */
  lemma {:induction false} RunRefines(run: seq<State>, steps: seq<Step>, n: nat)
    requires PoliteRun(run, steps) && n <= |steps|
    ensures Matches(run[n], StagesAt(run, steps, n))
    ensures n > 0 ==> Moved(StagesAt(run, steps, n - 1), StagesAt(run, steps, n))
  {
    if n > 0 {
      RunRefines(run, steps, n - 1);
      RunKeepsInv(run, steps, n - 1);
      CapIsConstant(run, steps, n - 1);
      match steps[n - 1]
      case Time(later) => TimeRefines(run[n - 1], later, StagesAt(run, steps, n - 1));
      case Work(c, w) => WorkRefines(run[n - 1], c, w, StagesAt(run, steps, n - 1));
      case Serve(a) => ServeRefines(run[n - 1], a, StagesAt(run, steps, n - 1));
    }
  }
}
