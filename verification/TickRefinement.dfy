/** The protocol's worker steps are what a tick of the channel does: run alone, the steps of one round of
    `proc` lead exactly where the tick of the task runner leads. */
module TickRefinement {
  import opened MessageWindows
  import opened ChannelRoom
  import opened ChannelTick
  import opened WindowJson
  import opened Collections
  import P = ChannelProtocol
  import TR = TaskRunner

  /** What the protocol sees of a channel. */
  function Abs(r: Room, pc: P.WorkerPc, lock: P.Owner): P.Chan {
    P.Chan(r.clients, r.joinPool.Keys, r.leavePool.Keys, r.marked, r.stop, r.emptySince, lock, pc)
  }

  /** The worker can take the steps `ws` one after the other, and they lead from `a` to `b`. */
  predicate Does(cap: nat, now: nat, a: P.Chan, ws: seq<P.WorkerStep>, b: P.Chan)
    decreases |ws|
  {
    if ws == [] then a == b
    else P.WorkerEnabled(a, ws[0]) && Does(cap, now, P.WorkerApply(cap, now, a, ws[0]), ws[1..], b)
  }

  lemma {:induction false} DoesAppend(cap: nat, now: nat, a: P.Chan, v: seq<P.WorkerStep>, b: P.Chan,
                                      w: seq<P.WorkerStep>, c: P.Chan)
    requires Does(cap, now, a, v, b) && Does(cap, now, b, w, c)
    ensures Does(cap, now, a, v + w, c)
    decreases |v|
  {
    if v == [] {
      assert v + w == w;
    } else {
      assert (v + w)[1..] == v[1..] + w;
      DoesAppend(cap, now, P.WorkerApply(cap, now, a, v[0]), v[1..], b, w, c);
    }
  }

  lemma DoesOne(cap: nat, now: nat, a: P.Chan, w: P.WorkerStep)
    requires P.WorkerEnabled(a, w)
    ensures Does(cap, now, a, [w], P.WorkerApply(cap, now, a, w))
  {
    assert [w][1..] == [];
  }

  lemma DoesFirst(cap: nat, now: nat, a: P.Chan, w: P.WorkerStep, ws: seq<P.WorkerStep>, b: P.Chan)
    requires P.WorkerEnabled(a, w) && Does(cap, now, P.WorkerApply(cap, now, a, w), ws, b)
    ensures Does(cap, now, a, [w] + ws, b)
  {
    assert ([w] + ws)[1..] == ws;
  }

  predicate NoAsks(ws: seq<P.WorkerStep>) {
    forall k :: 0 <= k < |ws| ==> !ws[k].Ask?
  }

  /** Nobody asks for the channel it is in. */
  predicate AsksAway(ws: seq<P.WorkerStep>, id: nat) {
    forall k :: 0 <= k < |ws| && ws[k].Ask? ==> ws[k].dst != id
  }

  /** The switch requests the worker reports along the way. */
  function AskedIn(ws: seq<P.WorkerStep>): seq<Request> {
    if ws == [] then []
    else (if ws[0].Ask? then [Request(ws[0].fd, ws[0].dst)] else []) + AskedIn(ws[1..])
  }

  lemma {:induction false} AskedAppend(v: seq<P.WorkerStep>, w: seq<P.WorkerStep>)
    ensures AskedIn(v + w) == AskedIn(v) + AskedIn(w)
    decreases |v|
  {
    if v == [] {
      assert v + w == w;
    } else {
      var x, rest := v[0], v[1..];
      assert v == [x] + rest && v + w == [x] + (rest + w);
      AskedCons(x, rest);
      AskedCons(x, rest + w);
      AskedAppend(rest, w);
      Regroup(if x.Ask? then [Request(x.fd, x.dst)] else [], AskedIn(rest), AskedIn(w));
    }
  }

  lemma AskedCons(x: P.WorkerStep, rest: seq<P.WorkerStep>)
    ensures AskedIn([x] + rest) == (if x.Ask? then [Request(x.fd, x.dst)] else []) + AskedIn(rest)
  {
    assert ([x] + rest)[1..] == rest;
  }

  lemma {:induction false} NoneAsked(ws: seq<P.WorkerStep>)
    requires NoAsks(ws)
    ensures AskedIn(ws) == []
    decreases |ws|
  {
    if ws != [] { NoneAsked(ws[1..]); }
  }

  // ---------------------------------------------------------------- the loops of a tick

  function Elements(fds: seq<Fd>): set<Fd> { set fd | fd in fds }

  lemma ElementsStep(fds: seq<Fd>)
    requires fds != [] && NoDuplicates(fds)
    ensures fds[0] in Elements(fds) && Elements(fds) - {fds[0]} == Elements(fds[1..]) && NoDuplicates(fds[1..])
  {
    var f := fds[0];
    assert f in fds && fds == [f] + fds[1..];
    forall j | 0 <= j < |fds[1..]| ensures fds[1..][j] != f { assert fds[1..][j] == fds[j + 1]; }
  }

  lemma {:induction false} AddsDo(r: Room, now: nat, fds: seq<Fd>, pool: map<Fd, Msg>) returns (ws: seq<P.WorkerStep>)
    requires NoDuplicates(fds) && forall fd :: fd in fds ==> fd in pool
    ensures Does(r.cap, now, Abs(r, P.Joining(Elements(fds)), P.ByWorker), ws,
                 Abs(AddAll(r, fds, pool), P.Joining({}), P.ByWorker))
    ensures AddAll(r, fds, pool).cap == r.cap && NoAsks(ws)
    decreases |fds|
  {
    if fds == [] {
      assert Elements(fds) == {};
      ws := [];
    } else {
      var f := fds[0];
      assert f in fds;
      ElementsStep(fds);
      var next := AddOne(r, f, pool[f]);
      var later := AddsDo(next, now, fds[1..], pool);
      var a := Abs(r, P.Joining(Elements(fds)), P.ByWorker);
      assert P.AddClient(r.cap, r.clients, f) == next.clients by {
        if f in r.clients { assert r.clients + {f} == r.clients; }
      }
      assert P.WorkerApply(r.cap, now, a, P.Add(f)) == Abs(next, P.Joining(Elements(fds[1..])), P.ByWorker);
      ws := [P.Add(f)] + later;
      DoesFirst(r.cap, now, a, P.Add(f), later, Abs(AddAll(r, fds, pool), P.Joining({}), P.ByWorker));
    }
  }

  lemma {:induction false} DropsDo(r: Room, now: nat, fds: seq<Fd>, pool: map<Fd, Msg>) returns (ws: seq<P.WorkerStep>)
    requires NoDuplicates(fds) && forall fd :: fd in fds ==> fd in pool
    ensures Does(r.cap, now, Abs(r, P.Leaving(Elements(fds)), P.ByWorker), ws,
                 Abs(DropAll(r, fds, pool), P.Leaving({}), P.ByWorker))
    ensures DropAll(r, fds, pool).cap == r.cap && NoAsks(ws)
    decreases |fds|
  {
    if fds == [] {
      assert Elements(fds) == {};
      ws := [];
    } else {
      var f := fds[0];
      assert f in fds;
      ElementsStep(fds);
      var next := DropOne(r, f, pool[f]);
      var later := DropsDo(next, now, fds[1..], pool);
      var a := Abs(r, P.Leaving(Elements(fds)), P.ByWorker);
      assert r.clients - {f} == next.clients;
      assert P.WorkerApply(r.cap, now, a, P.Drop(f)) == Abs(next, P.Leaving(Elements(fds[1..])), P.ByWorker);
      ws := [P.Drop(f)] + later;
      DoesFirst(r.cap, now, a, P.Drop(f), later, Abs(DropAll(r, fds, pool), P.Leaving({}), P.ByWorker));
    }
  }

  lemma {:induction false} DeletesDo(r: Room, now: nat, fds: seq<Fd>, names: map<Fd, string>) returns (ws: seq<P.WorkerStep>)
    requires NoDuplicates(fds)
    ensures Does(r.cap, now, Abs(r, P.Deleting(Elements(fds)), P.Free), ws,
                 Abs(DeleteAll(r, fds, now, names), P.Deleting({}), P.Free))
    ensures NoAsks(ws)
    decreases |fds|
  {
    if fds == [] {
      assert Elements(fds) == {};
      ws := [];
    } else {
      var f := fds[0];
      ElementsStep(fds);
      var next := DeleteOne(r, f, now, names);
      var later := DeletesDo(next, now, fds[1..], names);
      var a := Abs(r, P.Deleting(Elements(fds)), P.Free);
      assert P.WorkerApply(r.cap, now, a, P.Delete(f)) == Abs(next, P.Deleting(Elements(fds[1..])), P.Free);
      ws := [P.Delete(f)] + later;
      DoesFirst(r.cap, now, a, P.Delete(f), later, Abs(DeleteAll(r, fds, now, names), P.Deleting({}), P.Free));
    }
  }

  lemma {:induction false} PushAllKeeps(r: Room, msgs: seq<Msg>)
    ensures var h := PushAll(r, msgs);
            Abs(h, P.Polling, P.Free) == Abs(r, P.Polling, P.Free) && h.cap == r.cap && h.id == r.id
    decreases |msgs|
  {
    if msgs != [] { PushAllKeeps(Push(r, msgs[0]), msgs[1..]); }
  }

  /** Events concern clients of the channel's own tracker. */
  predicate FromClients(clients: set<Fd>, events: seq<Event>) {
    forall k :: 0 <= k < |events| ==> events[k].fd in clients
  }

  lemma {:induction false} MarksDo(r: Room, now: nat, events: seq<Event>) returns (ws: seq<P.WorkerStep>)
    requires FromClients(r.clients, events)
    ensures Does(r.cap, now, Abs(r, P.Polling, P.Free), ws, Abs(HandleAll(r, events), P.Polling, P.Free))
    ensures HandleAll(r, events).cap == r.cap && AskedIn(ws) == Requests(r.id, events) && AsksAway(ws, r.id)
    decreases |events|
  {
    if events == [] {
      ws := [];
    } else {
      var e := events[0];
      var next := Handle(r, e);
      if e.Chat? { PushAllKeeps(r.(rbuf := r.rbuf + {e.fd}), e.msgs); }
      assert next.clients == r.clients && FromClients(next.clients, events[1..]);
      var later := MarksDo(next, now, events[1..]);
      var a, end := Abs(r, P.Polling, P.Free), Abs(HandleAll(r, events), P.Polling, P.Free);
      match e {
        case Chat(_, _) => ws := later;
        case Asks(fd, dst) =>
          if dst == r.id {
            ws := later;
          } else {
            ws := [P.Ask(fd, dst)] + later;
            DoesFirst(r.cap, now, a, P.Ask(fd, dst), later, end);
            assert ws[1..] == later;
          }
        case HangUp(fd) =>
          ws := [P.Mark(fd)] + later;
          DoesFirst(r.cap, now, a, P.Mark(fd), later, end);
          assert ws[1..] == later;
        case BadRead(fd) =>
          ws := [P.Mark(fd)] + later;
          DoesFirst(r.cap, now, a, P.Mark(fd), later, end);
          assert ws[1..] == later;
      }
    }
  }

  // ---------------------------------------------------------------- resolve_pool

  lemma OrderCovers(order: Order, s: set<Fd>)
    requires IsOrder(order)
    ensures NoDuplicates(order(s)) && Elements(order(s)) == s && Restricted(order(s), s) == order(s)
  {
    RestrictedIsAll(order(s), s);
    forall fd ensures fd in Elements(order(s)) <==> fd in s {
      assert fd in Elements(order(s)) <==> fd in order(s);
    }
  }

  lemma JoinsDo(r: Room, now: nat, order: Order) returns (ws: seq<P.WorkerStep>)
    requires IsOrder(order)
    ensures Does(r.cap, now, Abs(r, P.Polling, P.Free), ws, Abs(Joined(r, order), P.Joining({}), P.ByWorker))
    ensures Joined(r, order).cap == r.cap && NoAsks(ws)
  {
    var emptied := r.(joinPool := map[]);
    OrderCovers(order, r.joinPool.Keys);
    var adds := AddsDo(emptied, now, order(r.joinPool.Keys), r.joinPool);
    var a := Abs(r, P.Polling, P.Free);
    assert P.WorkerApply(r.cap, now, a, P.Lock) == Abs(emptied, P.Joining(r.joinPool.Keys), P.ByWorker);
    ws := [P.Lock] + adds;
    DoesFirst(r.cap, now, a, P.Lock, adds, Abs(Joined(r, order), P.Joining({}), P.ByWorker));
  }

  lemma LeavesDo(r: Room, now: nat, order: Order) returns (ws: seq<P.WorkerStep>)
    requires IsOrder(order)
    ensures Does(r.cap, now, Abs(r, P.Joining({}), P.ByWorker), ws, Abs(Left(r, order), P.Leaving({}), P.ByWorker))
    ensures Left(r, order).cap == r.cap && NoAsks(ws)
  {
    var emptied := r.(leavePool := map[]);
    OrderCovers(order, r.leavePool.Keys);
    var drops := DropsDo(emptied, now, order(r.leavePool.Keys), r.leavePool);
    var a := Abs(r, P.Joining({}), P.ByWorker);
    assert P.WorkerApply(r.cap, now, a, P.JoinsDone) == Abs(emptied, P.Leaving(r.leavePool.Keys), P.ByWorker);
    ws := [P.JoinsDone] + drops;
    DoesFirst(r.cap, now, a, P.JoinsDone, drops, Abs(Left(r, order), P.Leaving({}), P.ByWorker));
  }

  lemma StopDoes(r: Room, now: nat) returns (ws: seq<P.WorkerStep>)
    ensures Does(r.cap, now, Abs(r, P.Leaving({}), P.ByWorker), ws, Abs(MaybeStopped(r, now), P.Broadcasting, P.Free))
    ensures NoAsks(ws)
  {
    var a, after := Abs(r, P.Leaving({}), P.ByWorker), MaybeStopped(r, now);
    var unlocking, end := Abs(after, P.Unlocking, P.ByWorker), Abs(after, P.Broadcasting, P.Free);
    DoesOne(r.cap, now, unlocking, P.Unlock);
    var left := P.WorkerApply(r.cap, now, a, P.LeavesDone);
    assert r.joinPool == map[] <==> r.joinPool.Keys == {};
    ws := [P.Unlock];
    if left.pc.Stamping? {
      assert P.WorkerApply(r.cap, now, left, P.Stamp) == unlocking;
      DoesFirst(r.cap, now, left, P.Stamp, ws, end);
      ws := [P.Stamp] + ws;
    } else {
      assert left == unlocking;
    }
    DoesFirst(r.cap, now, a, P.LeavesDone, ws, end);
    ws := [P.LeavesDone] + ws;
  }

  /** From the lock to the unlock, the worker's steps compute `resolve_pool`. */
  lemma PoolIsWorkerRun(r: Room, now: nat, order: Order) returns (ws: seq<P.WorkerStep>)
    requires IsOrder(order)
    ensures Does(r.cap, now, Abs(r, P.Polling, P.Free), ws, Abs(ResolvePool(r, order, now), P.Broadcasting, P.Free))
    ensures ResolvePool(r, order, now).cap == r.cap && NoAsks(ws)
  {
    var a, j := Abs(r, P.Polling, P.Free), Joined(r, order);
    var l := Left(j, order);
    var joins := JoinsDo(r, now, order);
    var leaves := LeavesDo(j, now, order);
    var stop := StopDoes(l, now);
    DoesAppend(r.cap, now, a, joins, Abs(j, P.Joining({}), P.ByWorker), leaves, Abs(l, P.Leaving({}), P.ByWorker));
    DoesAppend(r.cap, now, a, joins + leaves, Abs(l, P.Leaving({}), P.ByWorker), stop,
               Abs(ResolvePool(r, order, now), P.Broadcasting, P.Free));
    ws := joins + leaves + stop;
  }

  // ---------------------------------------------------------------- the whole tick

  lemma {:induction false} DeletionDoes(r: Room, i: Input) returns (ws: seq<P.WorkerStep>)
    requires IsOrder(i.order)
    ensures Does(r.cap, i.now, Abs(r, P.Broadcasting, P.Free), ws,
                 Abs(ResolveDeletion(Broadcast(r, i.links), i.order, i.now, i.names), P.LoopCheck, P.Free))
    ensures NoAsks(ws)
  {
    var b := Broadcast(r, i.links);
    var failed := Failed(|WindowText(EmplaceAll(r.cur, r.mq), r.id)|, r.clients, i.links);
    var end := ResolveDeletion(b, i.order, i.now, i.names);
    OrderCovers(i.order, b.marked);
    var deletes := DeletesDo(b, i.now, i.order(b.marked), i.names);
    var a := Abs(r, P.Broadcasting, P.Free);
    assert P.WorkerApply(r.cap, i.now, a, P.Broadcast(failed)) == Abs(b, P.Deleting(b.marked), P.Free);
    DoesOne(r.cap, i.now, Abs(end, P.Deleting({}), P.Free), P.TickDone);
    DoesAppend(r.cap, i.now, Abs(b, P.Deleting(b.marked), P.Free), deletes, Abs(end, P.Deleting({}), P.Free),
               [P.TickDone], Abs(end, P.LoopCheck, P.Free));
    ws := [P.Broadcast(failed)] + (deletes + [P.TickDone]);
    DoesFirst(r.cap, i.now, a, P.Broadcast(failed), deletes + [P.TickDone], Abs(end, P.LoopCheck, P.Free));
  }

  /** One round of `proc`: the loop test and a tick in the registered task order is a run of the
      protocol's worker, whether polling works or throws, and it reports the same switch requests. */
  lemma TickIsWorkerRun(r: Room, i: Input) returns (ws: seq<P.WorkerStep>)
    requires IsOrder(i.order) && FromClients(r.clients, i.events) && !r.stop
    ensures Does(r.cap, i.now, Abs(r, P.LoopCheck, P.Free), ws, Abs(Tick(r, i).state, P.LoopCheck, P.Free))
    ensures AskedIn(ws) == (if i.pollFails then [] else Requests(r.id, i.events)) && AsksAway(ws, r.id)
  {
    TickIsComposition(r, i);
    var a, c := Abs(r, P.LoopCheck, P.Free), Cleared(r);
    var polling, end := Abs(c, P.Polling, P.Free), Abs(Tick(r, i).state, P.LoopCheck, P.Free);
    assert P.WorkerApply(r.cap, i.now, a, P.Check) == polling;
    if i.pollFails {
      DoesOne(r.cap, i.now, polling, P.PollFails);
      ws := [P.PollFails];
      NoneAsked([P.Check] + ws);
    } else {
      ws := PolledDoes(r, i);
      assert ([P.Check] + ws)[1..] == ws;
    }
    DoesFirst(r.cap, i.now, a, P.Check, ws, end);
    ws := [P.Check] + ws;
  }

  /** The tick after its loop test, when polling works. */
  lemma {:induction false} PolledDoes(r: Room, i: Input) returns (ws: seq<P.WorkerStep>)
    requires IsOrder(i.order) && FromClients(r.clients, i.events) && !i.pollFails
    ensures Does(r.cap, i.now, Abs(Cleared(r), P.Polling, P.Free), ws,
                 Abs(ResolveDeletion(BeforeDeletion(r, i), i.order, i.now, i.names), P.LoopCheck, P.Free))
    ensures AskedIn(ws) == Requests(r.id, i.events) && AsksAway(ws, r.id)
  {
    var c := Cleared(r);
    var h := HandleAll(c, i.events);
    var p := ResolvePool(h, i.order, i.now);
    var polling := Abs(c, P.Polling, P.Free);
    var end := Abs(ResolveDeletion(BeforeDeletion(r, i), i.order, i.now, i.names), P.LoopCheck, P.Free);
    var marks := MarksDo(c, i.now, i.events);
    var pool := PoolIsWorkerRun(h, i.now, i.order);
    var rest := DeletionDoes(p, i);
    DoesAppend(r.cap, i.now, Abs(h, P.Polling, P.Free), pool, Abs(p, P.Broadcasting, P.Free), rest, end);
    DoesAppend(r.cap, i.now, polling, marks, Abs(h, P.Polling, P.Free), pool + rest, end);
    ws := marks + (pool + rest);
    AskedAppend(marks, pool + rest);
    NoneAsked(pool + rest);
    assert Requests(r.id, i.events) + [] == Requests(r.id, i.events);
  }

  // ---------------------------------------------------------------- as a run of the whole system

  /** The worker of `c` takes the steps in the whole system, nobody else moving in between. */
  predicate Works(s: P.State, c: P.ChId, ws: seq<P.WorkerStep>, t: P.State)
    decreases |ws|
  {
    if ws == [] then s == t
    else P.Enabled(s, P.Work(c, ws[0])) && Works(P.Apply(s, P.Work(c, ws[0])), c, ws[1..], t)
  }

  /** The reports that these requests become. */
  function ReportsOf(requests: seq<Request>, c: P.ChId): seq<P.Report> {
    seq(|requests|, k requires 0 <= k < |requests| => P.Report(requests[k].fd, c, requests[k].dst))
  }

  lemma ReportsCons(q: Request, rest: seq<Request>, c: P.ChId)
    ensures ReportsOf([q] + rest, c) == [P.Report(q.fd, c, q.dst)] + ReportsOf(rest, c)
  {
  }

  lemma OneWork(s: P.State, c: P.ChId, w: P.WorkerStep)
    requires c in s.chans && P.WorkerEnabled(s.chans[c], w) && (w.Ask? ==> w.dst != c)
    ensures P.Enabled(s, P.Work(c, w))
    ensures var t := P.Apply(s, P.Work(c, w));
            && t.chans == s.chans[c := P.WorkerApply(s.cap, s.now, s.chans[c], w)]
            && t.cap == s.cap && t.now == s.now && t.lobby == s.lobby && t.batch == s.batch && t.spc == s.spc
            && t.reports == s.reports + (if w.Ask? then [P.Report(w.fd, c, w.dst)] else [])
  {
    if !w.Ask? { assert s.reports + [] == s.reports; }
  }

  /** What a worker does alone it does in the whole system: its channel ends as computed, the other channels
      and the lobby stay as they were, and its requests are queued as reports, in order. */
  lemma {:induction false} WorkerRunIsSystemRun(s: P.State, c: P.ChId, ws: seq<P.WorkerStep>, b: P.Chan)
    returns (t: P.State)
    requires c in s.chans && Does(s.cap, s.now, s.chans[c], ws, b) && AsksAway(ws, c)
    ensures Works(s, c, ws, t) && t.chans == s.chans[c := b]
    ensures t.cap == s.cap && t.now == s.now && t.lobby == s.lobby && t.batch == s.batch && t.spc == s.spc
    ensures t.reports == s.reports + ReportsOf(AskedIn(ws), c)
    decreases |ws|
  {
    if ws == [] {
      t := s;
      assert s.chans[c := s.chans[c]] == s.chans && s.reports + [] == s.reports;
    } else {
      var w, rest := ws[0], ws[1..];
      OneWork(s, c, w);
      var next := P.Apply(s, P.Work(c, w));
      assert forall k :: 0 <= k < |rest| ==> rest[k] == ws[k + 1];
      t := WorkerRunIsSystemRun(next, c, rest, b);
      assert next.chans[c := b] == s.chans[c := b];
      if w.Ask? { ReportsCons(Request(w.fd, w.dst), AskedIn(rest), c); }
      Regroup(s.reports, if w.Ask? then [P.Report(w.fd, c, w.dst)] else [], ReportsOf(AskedIn(rest), c));
      assert ReportsOf([] + AskedIn(rest), c) == [] + ReportsOf(AskedIn(rest), c);
    }
  }

  /** So one round of `proc` on channel `r.id` is a run of the whole system that queues exactly the switch
      requests of the tick. */
  lemma TickIsSystemRun(s: P.State, r: Room, i: Input) returns (ws: seq<P.WorkerStep>, t: P.State)
    requires IsOrder(i.order) && FromClients(r.clients, i.events) && !r.stop
    requires r.id in s.chans && s.chans[r.id] == Abs(r, P.LoopCheck, P.Free) && s.cap == r.cap && s.now == i.now
    ensures Works(s, r.id, ws, t) && t.chans == s.chans[r.id := Abs(Tick(r, i).state, P.LoopCheck, P.Free)]
    ensures t.reports == s.reports + (if i.pollFails then [] else ReportsOf(Requests(r.id, i.events), r.id))
  {
    ws := TickIsWorkerRun(r, i);
    t := WorkerRunIsSystemRun(s, r.id, ws, Abs(Tick(r, i).state, P.LoopCheck, P.Free));
  }

  // ---------------------------------------------------------------- ticks before resolve_pool is registered

  /** The constructor starts the worker before it pushes `resolve_pool`: the first ticks may run the
      sessions without it. */
  function EarlyTick(r: Room, i: Input): TR.Ran<Job, Room> {
    TR.RunAll(CHAT_SESSIONS, r, (job, room) => Do(i, job, room))
  }

  lemma EarlyLogicSession(r: Room, i: Input)
    ensures var x := TR.RunSession(CHAT_SESSIONS[2], r, (job, room) => Do(i, job, room));
            x.session == CHAT_SESSIONS[2] && !x.threw
            && x.state == ResolveDeletion(Broadcast(r, i.links), i.order, i.now, i.names)
  {
    var s := CHAT_SESSIONS[2];
    assert s[1..] == [Keep(ResolveDeletionJob)] && s[1..][1..] == [];
  }

  lemma EarlyTickIsComposition(r: Room, i: Input)
    ensures var t := EarlyTick(r, i);
            t.state == if i.pollFails then Cleared(r)
                       else ResolveDeletion(Broadcast(HandleAll(Cleared(r), i.events), i.links), i.order, i.now, i.names)
  {
    var s0, s1, s2 := CHAT_SESSIONS[0], CHAT_SESSIONS[1], CHAT_SESSIONS[2];
    assert s0 == CHANNEL_SESSIONS[0] && s1 == CHANNEL_SESSIONS[1];
    assert CHAT_SESSIONS[1..] == [s1, s2] && [s1, s2][1..] == [s2] && [s2][1..] == [];
    PreSession(r, i);
    PollSession(Cleared(r), i);
    if !i.pollFails { EarlyLogicSession(HandleAll(Cleared(r), i.events), i); }
  }

  lemma NobodyHasNoEvents(clients: set<Fd>, events: seq<Event>)
    requires FromClients(clients, events)
    ensures clients == {} ==> events == []
  {
    if events != [] {
      var fd := events[0].fd;
      assert fd in clients;
    }
  }

  /** Nobody is a client before the first `resolve_pool`, so an early tick changes nothing the protocol
      sees: it is a worker round that does not get to the lock, and pending joins and leaves stay. */
  lemma EarlyTickIsWorkerRun(r: Room, i: Input)
    requires IsOrder(i.order) && FromClients(r.clients, i.events) && !r.stop && r.clients == {}
    ensures Does(r.cap, i.now, Abs(r, P.LoopCheck, P.Free), [P.Check, P.PollFails],
                 Abs(EarlyTick(r, i).state, P.LoopCheck, P.Free))
    ensures EarlyTick(r, i).state.joinPool == r.joinPool && EarlyTick(r, i).state.leavePool == r.leavePool
  {
    EarlyTickIsComposition(r, i);
    var c := Cleared(r);
    if !i.pollFails {
      NobodyHasNoEvents(r.clients, i.events);
      var b := Broadcast(c, i.links);
      assert Failed(|WindowText(b.cur, b.id)|, b.clients, i.links) == {};
      assert b.marked == {};
      OrderCovers(i.order, {});
      assert i.order(b.marked) == [];
    }
    DoesOne(r.cap, i.now, Abs(c, P.Polling, P.Free), P.PollFails);
    DoesFirst(r.cap, i.now, Abs(r, P.LoopCheck, P.Free), P.Check, [P.PollFails],
              Abs(EarlyTick(r, i).state, P.LoopCheck, P.Free));
    assert [P.Check] + [P.PollFails] == [P.Check, P.PollFails];
  }
}
