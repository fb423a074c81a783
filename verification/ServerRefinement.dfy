/** The lobby thread's steps in the protocol are what `consume_report` does to the table of channels: run
    without interference, the steps of one switch lead exactly where the method leads. */
module ServerRefinement {
  import opened ChannelRoom
  import opened ChannelRuns
  import opened ChannelServer
  import opened TickRefinement
  import MW = MessageWindows
  import P = ChannelProtocol

  type Fd = MW.Fd

  /** The server can take the steps one after the other, and they lead from `a` to `b`. */
  predicate Serves(a: P.State, steps: seq<P.ServerStep>, b: P.State)
    decreases |steps|
  {
    if steps == [] then a == b
    else P.ServerEnabled(a, steps[0]) && Serves(P.ServerApply(a, steps[0]), steps[1..], b)
  }

  predicate Goes(a: P.State, x: P.ServerStep, b: P.State) {
    P.ServerEnabled(a, x) && P.ServerApply(a, x) == b
  }

  lemma ServesFirst(a: P.State, v: seq<P.ServerStep>, b: P.State) returns (next: P.State)
    requires Serves(a, v, b) && v != []
    ensures Goes(a, v[0], next) && Serves(next, v[1..], b)
  {
    next := P.ServerApply(a, v[0]);
  }

  lemma ServesCons(a: P.State, v: seq<P.ServerStep>, next: P.State, w: seq<P.ServerStep>, c: P.State)
    requires v != [] && Goes(a, v[0], next) && Serves(next, v[1..] + w, c)
    ensures Serves(a, v + w, c)
  {
    assert (v + w)[1..] == v[1..] + w;
  }

  lemma ServesNothing(a: P.State, b: P.State, w: seq<P.ServerStep>, c: P.State)
    requires Serves(a, [], b) && Serves(b, w, c)
    ensures Serves(a, [] + w, c)
  {
    assert [] + w == w;
  }

  lemma {:induction false} ServesAppend(a: P.State, v: seq<P.ServerStep>, b: P.State, w: seq<P.ServerStep>, c: P.State)
    requires Serves(a, v, b) && Serves(b, w, c)
    ensures Serves(a, v + w, c)
    decreases |v|
  {
    if v == [] {
      ServesNothing(a, b, w, c);
    } else {
      var next := ServesFirst(a, v, b);
      ServesAppend(next, v[1..], b, w, c);
      ServesCons(a, v, next, w, c);
    }
  }

  lemma ServesOne(a: P.State, x: P.ServerStep)
    requires P.ServerEnabled(a, x)
    ensures Serves(a, [x], P.ServerApply(a, x))
  {
    assert [x][1..] == [];
  }

  /** None of the steps is a refusal whose error frame is not sent. */
  predicate Lossless(steps: seq<P.ServerStep>) {
    forall i :: 0 <= i < |steps| ==> steps[i] != P.PingTarget(false)
  }

  lemma ServesThen(a: P.State, v: seq<P.ServerStep>, b: P.State, x: P.ServerStep)
    requires Serves(a, v, b) && P.ServerEnabled(b, x)
    ensures Serves(a, v + [x], P.ServerApply(b, x))
    ensures Lossless(v) && x != P.PingTarget(false) ==> Lossless(v + [x])
  {
    ServesOne(b, x);
    ServesAppend(a, v, b, [x], P.ServerApply(b, x));
  }

  /** The protocol state shows this table, with workers and locks wherever they are. */
  ghost predicate Shows(s: P.State, rooms: Rooms, names: map<Fd, string>) {
    && s.chans.Keys == rooms.Keys && s.named == names.Keys
    && forall k :: k in rooms ==> rooms[k].cap == s.cap && s.chans[k] == Abs(rooms[k], s.chans[k].pc, s.chans[k].lock)
  }

  lemma NewIsShown(s: P.State, rooms: Rooms, names: map<Fd, string>, id: ChId)
    requires Shows(s, rooms, names)
    ensures Shows(s.(chans := P.WithChannel(s.chans, id)), WithRoom(rooms, s.cap, id), names)
  {
    var r: Room := NewRoom(s.cap, id);
    assert r.joinPool.Keys == {} && r.leavePool.Keys == {};
  }

  /** A stopped channel with its restart done, and any other as it is. */
  function Running(r: Room): Room {
    if r.stop then r.(stop := false, emptySince := 0) else r
  }

  /** Waiting for the ended worker, starting the next one and clearing the flags. */
  lemma RestartSteps(s: P.State)
    requires s.spc.AwaitWorker? && s.spc.at in s.chans && s.chans[s.spc.at].pc.Exited?
    ensures P.ServerEnabled(s, P.Restart) && P.ServerEnabled(P.ServerApply(s, P.Restart), P.StoreRunning)
    ensures var id := s.spc.at;
            P.ServerApply(P.ServerApply(s, P.Restart), P.StoreRunning)
            == s.(chans := s.chans[id := s.chans[id].(pc := P.LoopCheck, stop := false, emptySince := 0)],
                  spc := P.Emplace(s.spc.fd, id, s.spc.org))
  {
    var started := P.ServerApply(s, P.Restart);
    assert started.chans == s.chans[s.spc.at := s.chans[s.spc.at].(pc := P.LoopCheck)];
  }

  lemma RestartRuns(s: P.State, rooms: Rooms, names: map<Fd, string>)
    returns (steps: seq<P.ServerStep>, end: P.State)
    requires Shows(s, rooms, names) && s.spc.AwaitWorker? && s.spc.at in rooms && s.chans[s.spc.at].pc.Exited?
    ensures Serves(s, steps, end) && Lossless(steps) && end.spc == P.Emplace(s.spc.fd, s.spc.at, s.spc.org)
    ensures Shows(end, rooms[s.spc.at := rooms[s.spc.at].(stop := false, emptySince := 0)], names)
    ensures end.batch == s.batch && end.cap == s.cap && end.lobby == s.lobby
    ensures end.chans[s.spc.at].lock == s.chans[s.spc.at].lock
  {
    RestartSteps(s);
    var started := P.ServerApply(s, P.Restart);
    ServesOne(s, P.Restart);
    ServesThen(s, [P.Restart], started, P.StoreRunning);
    steps, end := [P.Restart] + [P.StoreRunning], P.ServerApply(started, P.StoreRunning);
  }

  lemma JoinRuns(s: P.State, rooms: Rooms, names: map<Fd, string>) returns (steps: seq<P.ServerStep>, end: P.State)
    requires Shows(s, rooms, names) && s.spc.AtJoin? && s.spc.at in rooms && s.spc.fd in names
    ensures Serves(s, steps, end) && Lossless(steps) && Shows(end, rooms, names)
    ensures end == s.(spc := if rooms[s.spc.at].stop then P.AwaitWorker(s.spc.fd, s.spc.at, s.spc.org)
                             else P.Emplace(s.spc.fd, s.spc.at, s.spc.org))
  {
    ServesOne(s, P.Join);
    steps, end := [P.Join], P.ServerApply(s, P.Join);
  }

  lemma RestartIsServerRun(s: P.State, rooms: Rooms, names: map<Fd, string>)
    returns (steps: seq<P.ServerStep>, end: P.State)
    requires Shows(s, rooms, names) && s.spc.AtJoin? && s.spc.at in rooms && s.spc.fd in names
    requires rooms[s.spc.at].stop ==> s.chans[s.spc.at].pc.Exited?
    ensures Serves(s, steps, end) && end.spc == P.Emplace(s.spc.fd, s.spc.at, s.spc.org)
    ensures Shows(end, rooms[s.spc.at := Running(rooms[s.spc.at])], names)
    ensures end.batch == s.batch && end.cap == s.cap && end.lobby == s.lobby
    ensures end.chans[s.spc.at].lock == s.chans[s.spc.at].lock && Lossless(steps)
  {
    var id := s.spc.at;
    steps, end := JoinRuns(s, rooms, names);
    if rooms[id].stop {
      var joined := end;
      var restart: seq<P.ServerStep>;
      restart, end := RestartRuns(joined, rooms, names);
      ServesAppend(s, steps, joined, restart, end);
      steps := steps + restart;
    } else {
      assert rooms[id := rooms[id]] == rooms;
    }
  }

  lemma PushJoinShows(s: P.State, rooms: Rooms, names: map<Fd, string>, timestamp: nat, text: string)
    requires Shows(s, rooms, names) && s.spc.Emplace? && s.spc.at in rooms && s.spc.fd in names
    requires !rooms[s.spc.at].stop
    ensures Serves(s, [P.PushJoin], P.ServerApply(s, P.PushJoin))
    ensures Shows(P.ServerApply(s, P.PushJoin),
                  rooms[s.spc.at := Admit(rooms[s.spc.at], names, s.spc.fd, timestamp, text)], names)
  {
    ServesOne(s, P.PushJoin);
  }

  lemma RunningFirst(rooms: Rooms, names: map<Fd, string>, id: ChId, fd: Fd, timestamp: nat, text: string)
    requires id in rooms && fd in names
    ensures var running := rooms[id := Running(rooms[id])];
            running[id := Admit(running[id], names, fd, timestamp, text)]
            == rooms[id := Admit(rooms[id], names, fd, timestamp, text)]
  {
    assert Admit(Running(rooms[id]), names, fd, timestamp, text) == Admit(rooms[id], names, fd, timestamp, text);
  }

  /** `join_and_logging`, for either kind of caller. */
  lemma {:induction false} AdmitIsServerRun(s: P.State, rooms: Rooms, names: map<Fd, string>, timestamp: nat, text: string)
    returns (steps: seq<P.ServerStep>, end: P.State)
    requires Shows(s, rooms, names) && s.spc.AtJoin? && s.spc.at in rooms
    requires rooms[s.spc.at].stop && s.spc.fd in names ==> s.chans[s.spc.at].pc.Exited?
    ensures Serves(s, steps, end) && end.spc == P.Settle(s.spc.fd, s.spc.at, s.spc.org)
    ensures Shows(end, rooms[s.spc.at := Admit(rooms[s.spc.at], names, s.spc.fd, timestamp, text)], names)
    ensures end.batch == s.batch && end.cap == s.cap && end.lobby == s.lobby && Lossless(steps)
  {
    var id, fd := s.spc.at, s.spc.fd;
    if fd in names {
      steps, end := RestartIsServerRun(s, rooms, names);
      var ready := end;
      PushJoinShows(ready, rooms[id := Running(rooms[id])], names, timestamp, text);
      RunningFirst(rooms, names, id, fd, timestamp, text);
      end := P.ServerApply(ready, P.PushJoin);
      ServesThen(s, steps, ready, P.PushJoin);
      steps := steps + [P.PushJoin];
    } else {
      ServesOne(s, P.Join);
      steps, end := [P.Join], P.ServerApply(s, P.Join);
      assert rooms[id := rooms[id]] == rooms;
    }
  }

  /** `leave_and_logging` on the source. */
  lemma FinishShows(s: P.State, rooms: Rooms, names: map<Fd, string>, timestamp: nat)
    returns (steps: seq<P.ServerStep>, end: P.State)
    requires Shows(s, rooms, names) && s.spc.Settle? && s.spc.org.FromChannel?
    requires s.spc.at in rooms && s.spc.org.src in rooms
    ensures Serves(s, steps, end) && Lossless(steps)
    ensures end.spc == P.Release(s.spc.at, s.spc.org) && end.batch == s.batch && end.cap == s.cap
    ensures var src := s.spc.org.src;
            Shows(end, rooms[src := Dismiss(rooms[src], names, s.spc.fd, timestamp)], names)
  {
    ServesOne(s, P.Finish);
    steps, end := [P.Finish], P.ServerApply(s, P.Finish);
  }

  lemma ReleaseShows(s: P.State, rooms: Rooms, names: map<Fd, string>)
    returns (steps: seq<P.ServerStep>, end: P.State)
    requires Shows(s, rooms, names) && s.spc.Release? && s.spc.at in rooms && s.spc.org.FromChannel?
    ensures Serves(s, steps, end) && Lossless(steps) && Shows(end, rooms, names)
    ensures end.spc == P.Consuming && end.batch == s.batch && end.cap == s.cap && end.chans[s.spc.at].lock.Free?
  {
    ServesOne(s, P.ReleaseLock);
    steps, end := [P.ReleaseLock], P.ServerApply(s, P.ReleaseLock);
  }

  /** `leave_and_logging` on the source, then `start_pooling` on the target. */
  lemma DismissIsServerRun(s: P.State, rooms: Rooms, names: map<Fd, string>, timestamp: nat)
    returns (steps: seq<P.ServerStep>, end: P.State)
    requires Shows(s, rooms, names) && s.spc.Settle? && s.spc.org.FromChannel?
    requires s.spc.at in rooms && s.spc.org.src in rooms
    ensures Serves(s, steps, end) && end.spc == P.Consuming && end.batch == s.batch && end.cap == s.cap
    ensures var src := s.spc.org.src;
            Shows(end, rooms[src := Dismiss(rooms[src], names, s.spc.fd, timestamp)], names)
    ensures end.chans[s.spc.at].lock.Free? && Lossless(steps)
  {
    var src := s.spc.org.src;
    var finish, left := FinishShows(s, rooms, names, timestamp);
    var release: seq<P.ServerStep>;
    release, end := ReleaseShows(left, rooms[src := Dismiss(rooms[src], names, s.spc.fd, timestamp)], names);
    ServesAppend(s, finish, left, release, end);
    steps := finish + release;
  }

  lemma KnownChans(chans: map<ChId, P.Chan>, src: ChId, dst: ChId)
    ensures var known := P.WithChannel(P.WithChannel(chans, src), dst);
            dst in known && known[dst] == if dst in chans then chans[dst] else P.NEW_CHAN
  {
  }

  /** Taking a report, which creates the channels it names. */
  lemma {:induction false} TakeShows(s: P.State, rooms: Rooms, names: map<Fd, string>, q: SwitchReport)
    requires Shows(s, rooms, names) && s.spc.Consuming? && s.batch != []
    requires s.batch[0] == P.Report(q.fd, q.src, q.dst)
    ensures var end := P.ServerApply(s, P.TakeReport);
            && Shows(end, Known(rooms, s.cap, q), names) && end.cap == s.cap
            && end.batch == s.batch[1..] && end.spc == P.SwitchLock(q.fd, q.src, q.dst)
            && (q.dst in rooms ==> end.chans[q.dst] == s.chans[q.dst])
            && (q.dst !in rooms ==> end.chans[q.dst].lock.Free? && end.chans[q.dst].pc.LoopCheck?)
  {
    KnownChans(s.chans, q.src, q.dst);
    var one := s.(chans := P.WithChannel(s.chans, q.src));
    NewIsShown(s, rooms, names, q.src);
    NewIsShown(one, WithRoom(rooms, s.cap, q.src), names, q.dst);
    var both := one.(chans := P.WithChannel(one.chans, q.dst));
    SameShown(both, P.ServerApply(s, P.TakeReport), Known(rooms, s.cap, q), names);
  }

  lemma SameShown(a: P.State, b: P.State, rooms: Rooms, names: map<Fd, string>)
    requires Shows(a, rooms, names) && a.chans == b.chans && a.named == b.named && a.cap == b.cap
    ensures Shows(b, rooms, names)
  {
  }

  /** No lock but that of `id` was taken. */
  predicate LocksBut(s: P.State, end: P.State, id: ChId) {
    forall k :: k in end.chans && k != id && end.chans[k].lock.ByServer? ==> k in s.chans && s.chans[k].lock.ByServer?
  }

  lemma KnownRooms(rooms: Rooms, cap: nat, q: SwitchReport)
    ensures var known := Known(rooms, cap, q);
            q.src in known && q.dst in known && (if q.dst in rooms then known[q.dst] == rooms[q.dst] else !known[q.dst].stop)
  {
  }

  lemma TakeLocks(s: P.State)
    requires s.spc.Consuming? && s.batch != []
    ensures var end := P.ServerApply(s, P.TakeReport);
            forall k :: k in end.chans && end.chans[k].lock.ByServer? ==> k in s.chans && s.chans[k].lock.ByServer?
  {
  }

  lemma TakeRuns(s: P.State, rooms: Rooms, names: map<Fd, string>, q: SwitchReport)
    returns (steps: seq<P.ServerStep>, end: P.State)
    requires Shows(s, rooms, names) && s.spc.Consuming? && s.batch != []
    requires s.batch[0] == P.Report(q.fd, q.src, q.dst)
    requires q.dst in rooms ==> s.chans[q.dst].lock.Free?
    ensures Serves(s, steps, end) && Lossless(steps) && Shows(end, Known(rooms, s.cap, q), names)
    ensures end.cap == s.cap && end.batch == s.batch[1..] && end.spc == P.SwitchLock(q.fd, q.src, q.dst)
    ensures q.dst in end.chans && end.chans[q.dst].lock.Free? && LocksBut(s, end, q.dst)
    ensures end.chans[q.dst].pc == if q.dst in rooms then s.chans[q.dst].pc else P.LoopCheck
  {
    ServesOne(s, P.TakeReport);
    TakeShows(s, rooms, names, q);
    TakeLocks(s);
    KnownRooms(rooms, s.cap, q);
    steps, end := [P.TakeReport], P.ServerApply(s, P.TakeReport);
  }

  lemma SetLock(s: P.State, rooms: Rooms, names: map<Fd, string>, id: ChId, lock: P.Owner, spc: P.ServerPc)
    requires Shows(s, rooms, names) && id in rooms
    ensures Shows(s.(chans := s.chans[id := s.chans[id].(lock := lock)], spc := spc), rooms, names)
  {
  }

  lemma LockRuns(s: P.State, rooms: Rooms, names: map<Fd, string>) returns (steps: seq<P.ServerStep>, end: P.State)
    requires Shows(s, rooms, names) && s.spc.SwitchLock? && s.spc.at in rooms && s.chans[s.spc.at].lock.Free?
    ensures Serves(s, steps, end) && Lossless(steps) && Shows(end, rooms, names)
    ensures end.spc == P.SwitchPing(s.spc.fd, s.spc.src, s.spc.at) && end.cap == s.cap && end.batch == s.batch
    ensures end.chans[s.spc.at].lock.ByServer? && end.chans[s.spc.at].pc == s.chans[s.spc.at].pc
    ensures LocksBut(s, end, s.spc.at)
  {
    var id := s.spc.at;
    ServesOne(s, P.LockTarget);
    steps, end := [P.LockTarget], P.ServerApply(s, P.LockTarget);
    SetLock(s, rooms, names, id, P.ByServer, end.spc);
    assert end == s.(chans := s.chans[id := s.chans[id].(lock := P.ByServer)], spc := end.spc);
  }

  /** Taking a report and locking its target. */
  lemma TakeIsServerRun(s: P.State, rooms: Rooms, names: map<Fd, string>, q: SwitchReport)
    returns (steps: seq<P.ServerStep>, end: P.State)
    requires Shows(s, rooms, names) && s.spc.Consuming? && s.batch != []
    requires s.batch[0] == P.Report(q.fd, q.src, q.dst)
    requires q.dst in rooms ==> s.chans[q.dst].lock.Free?
    ensures Serves(s, steps, end) && Shows(end, Known(rooms, s.cap, q), names)
    ensures end.cap == s.cap && end.batch == s.batch[1..] && end.spc == P.SwitchPing(q.fd, q.src, q.dst)
    ensures end.chans[q.dst].lock.ByServer?
    ensures end.chans[q.dst].pc == if q.dst in rooms then s.chans[q.dst].pc else P.LoopCheck
    ensures Lossless(steps) && LocksBut(s, end, q.dst)
  {
    KnownRooms(rooms, s.cap, q);
    var take, taken := TakeRuns(s, rooms, names, q);
    var lock: seq<P.ServerStep>;
    lock, end := LockRuns(taken, Known(rooms, s.cap, q), names);
    ServesAppend(s, take, taken, lock, end);
    steps := take + lock;
  }

  lemma SlotIsSpace(s: P.State, known: Rooms, names: map<Fd, string>, id: ChId)
    requires Shows(s, known, names) && id in known
    ensures P.HasSlot(s.cap, s.chans[id]) <==> HasSpace(known[id])
  {
    assert |known[id].joinPool.Keys| == |known[id].joinPool|;
  }

  /** The locked target has a slot. */
  lemma PingAdmits(s: P.State, known: Rooms, names: map<Fd, string>, sent: bool)
    returns (steps: seq<P.ServerStep>, end: P.State)
    requires Shows(s, known, names) && s.spc.SwitchPing? && s.spc.at in known && HasSpace(known[s.spc.at])
    ensures Serves(s, steps, end) && (sent ==> Lossless(steps))
    ensures end == s.(spc := P.AtJoin(s.spc.fd, s.spc.at, P.FromChannel(s.spc.src))) && Shows(end, known, names)
  {
    SlotIsSpace(s, known, names, s.spc.at);
    ServesOne(s, P.PingTarget(sent));
    steps, end := [P.PingTarget(sent)], P.ServerApply(s, P.PingTarget(sent));
  }

  /** The locked target is full: the lock is released, unless the error frame cannot be sent. */
  lemma PingRefuses(s: P.State, known: Rooms, names: map<Fd, string>, sent: bool)
    returns (steps: seq<P.ServerStep>, end: P.State)
    requires Shows(s, known, names) && s.spc.SwitchPing? && s.spc.at in known && !HasSpace(known[s.spc.at])
    ensures Serves(s, steps, end) && (sent ==> Lossless(steps)) && Shows(end, known, names)
    ensures if sent then end.spc.Consuming? && end.batch == s.batch && end.chans[s.spc.at].lock.Free?
            else end.spc.Idle? && end.batch == [] && end.chans == s.chans
  {
    SlotIsSpace(s, known, names, s.spc.at);
    ServesOne(s, P.PingTarget(sent));
    steps, end := [P.PingTarget(sent)], P.ServerApply(s, P.PingTarget(sent));
  }

  /** From the admission to the unlock: the user is posted to the target and dismissed from the source. */
  lemma MoveIsServerRun(s: P.State, known: Rooms, names: map<Fd, string>, q: SwitchReport)
    returns (steps: seq<P.ServerStep>, end: P.State)
    requires Shows(s, known, names) && s.spc == P.AtJoin(q.fd, q.dst, P.FromChannel(q.src))
    requires q.src in known && q.dst in known
    requires known[q.dst].stop && q.fd in names ==> s.chans[q.dst].pc.Exited?
    ensures Serves(s, steps, end) && Shows(end, Moved(known, names, q), names)
    ensures end.spc.Consuming? && end.batch == s.batch && end.chans[q.dst].lock.Free? && Lossless(steps)
  {
    var admit, admitted := AdmitIsServerRun(s, known, names, q.timestamp, "rejoin");
    var joined := known[q.dst := Admit(known[q.dst], names, q.fd, q.timestamp, "rejoin")];
    var dismiss: seq<P.ServerStep>;
    dismiss, end := DismissIsServerRun(admitted, joined, names, q.timestamp);
    ServesAppend(s, admit, admitted, dismiss, end);
    steps := admit + dismiss;
  }

  /** An admitted switch, from the locked target on. */
  lemma AdmittedIsServerRun(s: P.State, known: Rooms, names: map<Fd, string>, q: SwitchReport, sent: bool)
    returns (steps: seq<P.ServerStep>, end: P.State)
    requires Shows(s, known, names) && s.spc == P.SwitchPing(q.fd, q.src, q.dst)
    requires q.src in known && q.dst in known && HasSpace(known[q.dst])
    requires known[q.dst].stop && q.fd in names ==> s.chans[q.dst].pc.Exited?
    ensures Serves(s, steps, end) && Shows(end, Moved(known, names, q), names)
    ensures end.spc.Consuming? && end.batch == s.batch && end.chans[q.dst].lock.Free?
    ensures sent ==> Lossless(steps)
  {
    var ping, pinged := PingAdmits(s, known, names, sent);
    var move: seq<P.ServerStep>;
    move, end := MoveIsServerRun(pinged, known, names, q);
    ServesAppend(s, ping, pinged, move, end);
    steps := ping + move;
  }

  /** One report, from its removal from the queue: an admitted switch ends with the lock released and
      the table of `Switch`; a refusal changes nothing, and keeps the lock if its frame is not sent. */
  lemma SwitchIsServerRun(s: P.State, rooms: Rooms, names: map<Fd, string>, q: SwitchReport, sent: bool)
    returns (steps: seq<P.ServerStep>, end: P.State)
    requires Shows(s, rooms, names) && s.spc.Consuming? && s.batch != []
    requires s.batch[0] == P.Report(q.fd, q.src, q.dst)
    requires q.dst in rooms ==> s.chans[q.dst].lock.Free?
    requires q.dst in rooms && rooms[q.dst].stop && q.fd in names ==> s.chans[q.dst].pc.Exited?
    ensures Serves(s, steps, end) && Shows(end, Switch(rooms, s.cap, names, q), names)
    ensures if !HasSpace(Known(rooms, s.cap, q)[q.dst]) && !sent
            then end.spc.Idle? && end.batch == [] && end.chans[q.dst].lock.ByServer?
            else end.spc.Consuming? && end.batch == s.batch[1..] && end.chans[q.dst].lock.Free?
    ensures sent ==> Lossless(steps)
    ensures end.spc.Idle? ==> LocksBut(s, end, q.dst)
  {
    var known := Known(rooms, s.cap, q);
    var take, taken := TakeIsServerRun(s, rooms, names, q);
    KnownRooms(rooms, s.cap, q);
    var rest: seq<P.ServerStep>;
    if HasSpace(known[q.dst]) {
      rest, end := AdmittedIsServerRun(taken, known, names, q, sent);
    } else {
      rest, end := PingRefuses(taken, known, names, sent);
    }
    ServesAppend(s, take, taken, rest, end);
    steps := take + rest;
  }
}
