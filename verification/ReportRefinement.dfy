/** The whole of `consume_report`: the queue is drained and handled report by report, by a run of the
    protocol's lobby thread with the same table and the same lock left behind, if any. */
module ReportRefinement {
  import opened ChannelServer
  import R = ChannelRoom
  import opened ServerRefinement
  import PR = ProtocolRuns
  import P = ChannelProtocol
  import MW = MessageWindows

  type Fd = MW.Fd

  // ---------------------------------------------------------------- what the lobby's steps keep

  /** The worker is not in its critical section, and a stopped channel has none, unless it is just being
      restarted. */
  predicate IsParked(ch: P.Chan, k: ChId, spc: P.ServerPc) {
    !ch.lock.ByWorker? && (ch.stop ==> ch.pc.Exited? || (spc.ClearStop? && spc.at == k))
  }

  predicate Parked(s: P.State) {
    forall k :: k in s.chans ==> IsParked(s.chans[k], k, s.spc)
  }

  lemma ParkedAt(s: P.State, a: P.ServerStep, k: ChId)
    requires P.ServerEnabled(s, a) && (k in s.chans ==> IsParked(s.chans[k], k, s.spc))
    ensures var t := P.ServerApply(s, a); k in t.chans ==> IsParked(t.chans[k], k, t.spc)
  {
  }

  lemma ParkedServe(s: P.State, a: P.ServerStep)
    requires P.ServerEnabled(s, a) && Parked(s)
    ensures Parked(P.ServerApply(s, a))
  {
    var t := P.ServerApply(s, a);
    forall k | k in t.chans ensures IsParked(t.chans[k], k, t.spc) { ParkedAt(s, a, k); }
  }

  lemma ServeKeepsRest(s: P.State, a: P.ServerStep)
    requires P.ServerEnabled(s, a)
    ensures var t := P.ServerApply(s, a); t.cap == s.cap && (s.reports == [] ==> t.reports == [])
  {
  }

  lemma {:induction false} ServesKeeps(s: P.State, steps: seq<P.ServerStep>, end: P.State)
    requires Serves(s, steps, end) && Parked(s)
    ensures Parked(end) && end.cap == s.cap && (s.reports == [] ==> end.reports == [])
    decreases |steps|
  {
    if steps != [] {
      ParkedServe(s, steps[0]);
      ServeKeepsRest(s, steps[0]);
      ServesKeeps(P.ServerApply(s, steps[0]), steps[1..], end);
    }
  }

  lemma {:induction false} ServesDisciplined(s: P.State, steps: seq<P.ServerStep>, end: P.State)
    requires Serves(s, steps, end) && PR.Disciplined(s) && Lossless(steps)
    ensures PR.Disciplined(end)
    decreases |steps|
  {
    if steps != [] {
      assert steps[0] != P.PingTarget(false);
      PR.DisciplinedServe(s, steps[0]);
      assert forall i :: 0 <= i < |steps[1..]| ==> steps[1..][i] == steps[i + 1];
      ServesDisciplined(P.ServerApply(s, steps[0]), steps[1..], end);
    }
  }

  // ---------------------------------------------------------------- the loop

  function Reports(qs: seq<SwitchReport>): seq<P.Report> {
    seq(|qs|, i requires 0 <= i < |qs| => P.Report(qs[i].fd, qs[i].src, qs[i].dst))
  }

  /** Between two reports, or after the last. */
  ghost predicate Between(s: P.State, rooms: Rooms, names: map<Fd, string>) {
    Shows(s, rooms, names) && s.spc.Consuming? && s.reports == [] && PR.Disciplined(s) && Parked(s)
  }

  /** The table, and exactly these locks. */
  ghost predicate Ends(s: P.State, all: Consumed, names: map<Fd, string>) {
    && Shows(s, all.rooms, names) && s.spc.Idle? && s.batch == [] && s.reports == []
    && forall k :: k in s.chans ==> (s.chans[k].lock.ByServer? <==> k in all.locked)
  }

  /** A report that is handled to its end. */
  lemma NextReport(s: P.State, rooms: Rooms, names: map<Fd, string>, q: SwitchReport)
    returns (steps: seq<P.ServerStep>, end: P.State)
    requires Between(s, rooms, names) && s.batch != [] && s.batch[0] == P.Report(q.fd, q.src, q.dst)
    ensures Serves(s, steps, end) && Between(end, Switch(rooms, s.cap, names, q), names)
    ensures end.batch == s.batch[1..] && end.cap == s.cap
  {
    steps, end := SwitchIsServerRun(s, rooms, names, q, true);
    ServesKeeps(s, steps, end);
    ServesDisciplined(s, steps, end);
  }

  /** A refusal whose error frame is not sent ends the loop. */
  lemma LastReport(s: P.State, rooms: Rooms, names: map<Fd, string>, q: SwitchReport)
    returns (steps: seq<P.ServerStep>, end: P.State)
    requires Between(s, rooms, names) && s.batch != [] && s.batch[0] == P.Report(q.fd, q.src, q.dst)
    requires !HasRoom(rooms, s.cap, q)
    ensures Serves(s, steps, end) && Ends(end, Consumed(Known(rooms, s.cap, q), {q.dst}), names)
  {
    steps, end := SwitchIsServerRun(s, rooms, names, q, false);
    ServesKeeps(s, steps, end);
  }

  predicate HasRoom(rooms: Rooms, cap: nat, q: SwitchReport) {
    R.HasSpace(Known(rooms, cap, q)[q.dst])
  }

  lemma {:induction false} LoopIsServerRun(s: P.State, rooms: Rooms, names: map<Fd, string>, qs: seq<SwitchReport>,
                                           sent: seq<bool>)
    returns (steps: seq<P.ServerStep>, end: P.State)
    requires Between(s, rooms, names) && s.batch == Reports(qs) && |sent| == |qs|
    ensures Serves(s, steps, end) && Ends(end, ConsumeAll(rooms, s.cap, names, qs, sent), names)
    decreases |qs|
  {
    if qs == [] {
      end, steps := P.ServerApply(s, P.DrainEnd), [P.DrainEnd];
      ServesOne(s, P.DrainEnd);
    } else if !HasRoom(rooms, s.cap, qs[0]) && !sent[0] {
      steps, end := LastReport(s, rooms, names, qs[0]);
    } else {
      var one, next := NextReport(s, rooms, names, qs[0]);
      assert Reports(qs)[1..] == Reports(qs[1..]);
      var more: seq<P.ServerStep>;
      more, end := LoopIsServerRun(next, Switch(rooms, s.cap, names, qs[0]), names, qs[1..], sent[1..]);
      ServesAppend(s, one, next, more, end);
      steps := one + more;
    }
  }

  /** With the workers outside their critical sections, `consume_report` on any queue is a run of the
      protocol's lobby thread from drain to end. */
  lemma ConsumeIsServerRun(s: P.State, rooms: Rooms, names: map<Fd, string>, qs: seq<SwitchReport>, sent: seq<bool>)
    returns (steps: seq<P.ServerStep>, end: P.State)
    requires Shows(s, rooms, names) && s.spc.Idle? && PR.Disciplined(s) && Parked(s)
    requires s.reports == Reports(qs) && |sent| == |qs|
    ensures Serves(s, steps, end) && Ends(end, ConsumeAll(rooms, s.cap, names, qs, sent), names)
  {
    var drained := P.ServerApply(s, P.Drain);
    ServesOne(s, P.Drain);
    PR.DisciplinedServe(s, P.Drain);
    var more: seq<P.ServerStep>;
    more, end := LoopIsServerRun(drained, rooms, names, qs, sent);
    ServesAppend(s, [P.Drain], drained, more, end);
    steps := [P.Drain] + more;
  }
}
