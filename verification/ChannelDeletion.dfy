/** A descriptor marked during a tick is gone at the end of that tick, and its "leave" is shown in the
    next tick. Both follow from the order in which the three constructors register their tasks. */
module ChannelDeletion {
  import opened MessageWindows
  import opened ChannelRoom
  import opened ChannelTick
  import opened ChannelRuns
  import opened WindowJson
  import opened Collections

  // ---------------------------------------------------------------- counting leave messages

  predicate IsLeave(m: Msg, fd: Fd) {
    m.kind.System? && m.text == "leave" && m.from == fd
  }

  function Leaves(s: seq<Msg>, fd: Fd): nat {
    if s == [] then 0 else (if IsLeave(s[0], fd) then 1 else 0) + Leaves(s[1..], fd)
  }

  lemma {:induction false} LeavesAppend(a: seq<Msg>, b: seq<Msg>, fd: Fd)
    ensures Leaves(a + b, fd) == Leaves(a, fd) + Leaves(b, fd)
  {
    if a == [] {
      assert a + b == b;
    } else {
      assert (a + b)[1..] == a[1..] + b;
      LeavesAppend(a[1..], b, fd);
    }
  }

  lemma {:induction false} LeavesEmplace(w: seq<Msg>, m: Msg, fd: Fd)
    ensures Leaves(Emplace(w, m), fd) == Leaves(w, fd) + (if IsLeave(m, fd) then 1 else 0)
  {
    if w == [] || m.timestamp < w[0].timestamp {
      assert ([m] + w)[1..] == w;
    } else {
      LeavesEmplace(w[1..], m, fd);
      assert ([w[0]] + Emplace(w[1..], m))[1..] == Emplace(w[1..], m);
    }
  }

  lemma {:induction false} LeavesWindow(w: seq<Msg>, q: seq<Msg>, fd: Fd)
    ensures Leaves(EmplaceAll(w, q), fd) == Leaves(w, fd) + Leaves(q, fd)
    decreases |q|
  {
    if q != [] {
      LeavesEmplace(w, q[0], fd);
      LeavesWindow(Emplace(w, q[0]), q[1..], fd);
    }
  }

  lemma {:induction false} OneLeaveEach(fds: seq<Fd>, now: nat, names: map<Fd, string>, fd: Fd)
    requires NoDuplicates(fds)
    ensures Leaves(LeaveMsgs(fds, now, names), fd) == if fd in fds then 1 else 0
  {
    if fds != [] {
      OneLeaveEach(fds[1..], now, names, fd);
      assert LeaveMsgs(fds, now, names)[1..] == LeaveMsgs(fds[1..], now, names);
      assert fds == [fds[0]] + fds[1..];
    }
  }

  lemma {:induction false} LeaveMsgsAre(fds: seq<Fd>, now: nat, names: map<Fd, string>)
    ensures var ms := LeaveMsgs(fds, now, names);
            |ms| == |fds| && forall k :: 0 <= k < |fds| ==>
              ms[k] == Msg(fds[k], System, "leave", now, if fds[k] in names then names[fds[k]] else "unknown")
  {
    if fds != [] { LeaveMsgsAre(fds[1..], now, names); }
  }

  // ---------------------------------------------------------------- what the environment posts

  /** Messages posted to the pools and read from clients, as the server and the readers build them. */
  ghost predicate WellFormedPools(r: Room) {
    && (forall fd :: fd in r.joinPool ==> r.joinPool[fd].text != "leave")
    && (forall fd :: fd in r.leavePool ==> IsLeave(r.leavePool[fd], fd))
  }

  predicate UserMessages(i: Input) {
    forall k :: 0 <= k < |i.events| && i.events[k].Chat? ==>
      forall j :: 0 <= j < |i.events[k].msgs| ==> i.events[k].msgs[j].kind.User?
  }

  lemma {:induction false} NoLeavesFromUsers(msgs: seq<Msg>, fd: Fd)
    requires forall j :: 0 <= j < |msgs| ==> msgs[j].kind.User?
    ensures Leaves(msgs, fd) == 0
  {
    if msgs != [] { NoLeavesFromUsers(msgs[1..], fd); }
  }

  /** Event handling pushes no "leave", touches neither clients nor pools, and only adds marks. */
  lemma {:induction false} HandleAllEffect(r: Room, events: seq<Event>, fd: Fd)
    requires forall k :: 0 <= k < |events| && events[k].Chat? ==>
               forall j :: 0 <= j < |events[k].msgs| ==> events[k].msgs[j].kind.User?
    ensures var h := HandleAll(r, events);
            && Leaves(h.mq, fd) == Leaves(r.mq, fd)
            && h.clients == r.clients && h.joinPool == r.joinPool && h.leavePool == r.leavePool
            && (fd in h.marked <==> fd in r.marked || MarkedBy(events, fd))
    decreases |events|
  {
    if events != [] {
      var e := events[0];
      if e.Chat? {
        PushAllGrows(r.(rbuf := r.rbuf + {e.fd}), e.msgs);
        NoLeavesFromUsers(e.msgs, fd);
        LeavesAppend(r.mq, e.msgs, fd);
      }
      HandleAllEffect(Handle(r, e), events[1..], fd);
      assert MarkedBy(events, fd) <==> (IsBad(e) && e.fd == fd) || MarkedBy(events[1..], fd) by {
        assert forall k :: 1 <= k < |events| ==> events[k] == events[1..][k - 1];
      }
    }
  }

  predicate IsBad(e: Event) {
    e.HangUp? || e.BadRead?
  }

  predicate MarkedBy(events: seq<Event>, fd: Fd) {
    exists k :: 0 <= k < |events| && IsBad(events[k]) && events[k].fd == fd
  }

  lemma {:induction false} AddAllEffect(r: Room, fds: seq<Fd>, pool: map<Fd, Msg>, fd: Fd)
    requires forall f :: f in fds ==> f in pool
    requires forall f :: f in pool ==> pool[f].text != "leave"
    ensures var a := AddAll(r, fds, pool);
            && Leaves(a.mq, fd) == Leaves(r.mq, fd) && r.clients <= a.clients
            && (fd in a.clients ==> fd in r.clients || fd in fds)
            && a.marked == r.marked && a.leavePool == r.leavePool && a.joinPool == r.joinPool
    decreases |fds|
  {
    if fds != [] {
      var f := fds[0];
      assert f in fds && fds == [f] + fds[1..];
      LeavesAppend(r.mq, [pool[f]], fd);
      AddAllEffect(AddOne(r, f, pool[f]), fds[1..], pool, fd);
    }
  }

  lemma {:induction false} DropAllEffect(r: Room, fds: seq<Fd>, pool: map<Fd, Msg>, fd: Fd)
    requires NoDuplicates(fds) && forall f :: f in fds ==> f in pool && IsLeave(pool[f], f)
    ensures var d := DropAll(r, fds, pool);
            && Leaves(d.mq, fd) == Leaves(r.mq, fd) + (if fd in fds && fd in r.clients then 1 else 0)
            && d.clients <= r.clients && d.marked == r.marked && d.joinPool == r.joinPool
    decreases |fds|
  {
    if fds != [] {
      var next := DropOne(r, fds[0], pool[fds[0]]);
      LeavesAppend(r.mq, [pool[fds[0]]], fd);
      DropAllEffect(next, fds[1..], pool, fd);
      assert fds == [fds[0]] + fds[1..];
    }
  }

  /** The leaves `resolve_pool` announces for `fd`: one if a leave is pending and `fd` is (by then) a client. */
  lemma PoolLeaves(r: Room, order: Order, now: nat, fd: Fd)
    requires IsOrder(order) && WellFormedPools(r)
    ensures var p := ResolvePool(r, order, now);
            && p.marked == r.marked
            && Leaves(p.mq, fd) == Leaves(r.mq, fd)
                                   + (if fd in r.leavePool && fd in Joined(r, order).clients then 1 else 0)
    ensures r.clients <= Joined(r, order).clients
    ensures fd in ResolvePool(r, order, now).clients ==> fd in r.clients || fd in r.joinPool
  {
    var js := order(r.joinPool.Keys);
    RestrictedIsAll(js, r.joinPool.Keys);
    AddAllEffect(r.(joinPool := map[]), js, r.joinPool, fd);
    var j := Joined(r, order);
    var ls := order(j.leavePool.Keys);
    RestrictedIsAll(ls, j.leavePool.Keys);
    DropAllEffect(j.(leavePool := map[]), ls, j.leavePool, fd);
  }

  // ---------------------------------------------------------------- the deletion theorem

  /** The clients to which this tick's window is not sent. */
  function Unsent(r: Room, i: Input): set<Fd> {
    var p := ResolvePool(HandleAll(Cleared(r), i.events), i.order, i.now);
    Failed(|WindowText(EmplaceAll(p.cur, p.mq), p.id)|, p.clients, i.links)
  }

  /** Marked by event handling in this tick, or by its failed broadcast. */
  ghost predicate MarkedInTick(r: Room, i: Input, fd: Fd) {
    MarkedBy(i.events, fd)
    || fd in Unsent(r, i)
  }

  lemma MarksBeforeDeletion(r: Room, i: Input, fd: Fd)
    requires IsOrder(i.order) && WellFormedPools(r) && UserMessages(i)
    ensures fd in BeforeDeletion(r, i).marked <==> MarkedInTick(r, i, fd)
    ensures BeforeDeletion(r, i).mq == []
  {
    HandleAllEffect(Cleared(r), i.events, fd);
    PoolLeaves(HandleAll(Cleared(r), i.events), i.order, i.now, fd);
  }

  /** At the end of a tick whose polling works, exactly the marked descriptors are gone from tracker and
      buffers, and exactly they have one "leave" in the queue, which is otherwise empty. */
  lemma DeletedWithinTick(r: Room, i: Input, fd: Fd)
    requires IsOrder(i.order) && WellFormedPools(r) && UserMessages(i) && !i.pollFails
    ensures var t, b := Tick(r, i).state, BeforeDeletion(r, i);
            && (MarkedInTick(r, i, fd) ==> fd !in t.clients && fd !in t.rbuf)
            && (!MarkedInTick(r, i, fd) ==> (fd in t.clients <==> fd in b.clients) && (fd in t.rbuf <==> fd in b.rbuf))
            && Leaves(t.mq, fd) == (if MarkedInTick(r, i, fd) then 1 else 0)
            && t.mq == LeaveMsgs(i.order(b.marked), i.now, i.names)
    ensures var t, fds := Tick(r, i).state, i.order(BeforeDeletion(r, i).marked);
            |t.mq| == |fds| && forall k :: 0 <= k < |fds| ==>
              t.mq[k] == Msg(fds[k], System, "leave", i.now, if fds[k] in i.names then i.names[fds[k]] else "unknown")
  {
    TickIsComposition(r, i);
    MarksBeforeDeletion(r, i, fd);
    var b := BeforeDeletion(r, i);
    var fds := i.order(b.marked);
    DeleteAllEffect(b, fds, i.now, i.names);
    OneLeaveEach(fds, i.now, i.names, fd);
    LeaveMsgsAre(fds, i.now, i.names);
    assert [] + LeaveMsgs(fds, i.now, i.names) == LeaveMsgs(fds, i.now, i.names);
  }

  lemma DeletionEmpties(b: Room, order: Order, now: nat, names: map<Fd, string>)
    requires IsOrder(order)
    ensures ResolveDeletion(b, order, now, names).clients == {} <==> b.clients <= b.marked
  {
    var left := ResolveDeletion(b, order, now, names).clients;
    DeleteAllEffect(b, order(b.marked), now, names);
    assert forall fd :: fd in left <==> fd in b.clients && fd !in b.marked;
    if left != {} {
      var fd := AnyOf(left);
      assert fd in b.clients && fd !in b.marked;
    }
  }

  /** A tick leaves a channel without clients exactly when every client it then had was marked, by an event
      or because the window was not sent to it. */
  lemma EmptiedExactly(r: Room, i: Input)
    requires IsOrder(i.order) && !i.pollFails
    ensures var b := BeforeDeletion(r, i);
            && (Tick(r, i).state.clients == {} <==> b.clients <= b.marked)
  {
    TickIsComposition(r, i);
    DeletionEmpties(BeforeDeletion(r, i), i.order, i.now, i.names);
  }

  /** A client marked in a tick is announced as leaving once, over the whole tick, exactly when no leave
      of it was pending: otherwise twice, by the switch and again by the deletion. */
  lemma OneAnnouncementExactly(r: Room, i: Input, fd: Fd)
    requires IsOrder(i.order) && WellFormedPools(r) && UserMessages(i) && !i.pollFails
    requires fd in r.clients && MarkedInTick(r, i, fd)
    ensures |Tick(r, i).state.windows| == |r.windows| + 1
    ensures var t := Tick(r, i).state;
            Leaves(t.windows[|r.windows|] + t.mq, fd) == Leaves(r.mq, fd) + (if fd in r.leavePool then 2 else 1)
  {
    TickIsComposition(r, i);
    DeletedWithinTick(r, i, fd);
    var h := HandleAll(Cleared(r), i.events);
    HandleAllEffect(Cleared(r), i.events, fd);
    HandleAllGrows(Cleared(r), i.events);
    PoolLeaves(h, i.order, i.now, fd);
    ResolvePoolGrows(h, i.order, i.now);
    var p := ResolvePool(h, i.order, i.now);
    LeavesWindow(p.cur, p.mq, fd);
    var b := BeforeDeletion(r, i);
    DeleteAllEffect(b, i.order(b.marked), i.now, i.names);
    var t := Tick(r, i).state;
    assert t.windows == r.windows + [EmplaceAll([], p.mq)];
    LeavesAppend(t.windows[|r.windows|], t.mq, fd);
  }

  /** A client of a channel with one client whose switch has posted its leave, and which hangs up. */
  function Switching(fd: Fd): Room {
    var m := Msg(fd, System, "leave", 1, "user");
    NewRoom(1, 1).(clients := {fd}, leavePool := map[fd := m])
  }

  function HangsUp(fd: Fd, order: Order, links: Links): Input {
    Input(false, [HangUp(fd)], links, order, 2, map[])
  }

  /** In one of the many orders. */
  ghost function SomeOrder(s: set<Fd>): seq<Fd> {
    if exists fd :: fd in s then var fd :| fd in s; [fd] + SomeOrder(s - {fd}) else []
  }

  lemma {:induction false} SomeOrderOf(s: set<Fd>)
    ensures NoDuplicates(SomeOrder(s)) && forall fd :: fd in SomeOrder(s) <==> fd in s
  {
    if exists fd :: fd in s {
      var fd := SomeOrder(s)[0];
      SomeOrderOf(s - {fd});
      assert SomeOrder(s) == [fd] + SomeOrder(s - {fd});
    }
  }

  /** For instance: its "leave" goes out twice. */
  lemma TwoAnnouncements(fd: Fd, links: Links)
    ensures var t := Tick(Switching(fd), HangsUp(fd, SomeOrder, links)).state;
            |t.windows| == 1 && Leaves(t.windows[0] + t.mq, fd) == 2
  {
    var r, i := Switching(fd), HangsUp(fd, SomeOrder, links);
    forall s: set<Fd> ensures NoDuplicates(SomeOrder(s)) && forall fd :: fd in SomeOrder(s) <==> fd in s {
      SomeOrderOf(s);
    }
    assert IsBad(i.events[0]) && i.events[0].fd == fd;
    OneAnnouncementExactly(r, i, fd);
  }

  // ---------------------------------------------------------------- shown in the next tick

  /** What may happen between two ticks that poll: posts by the server, and ticks whose polling fails. */
  predicate IsQuiet(e: RunEvent) {
    e.Ticked? ==> e.i.pollFails
  }

  function AfterAll(r: Room, es: seq<RunEvent>): Room
    decreases |es|
  {
    if es == [] then r else AfterAll(After(r, es[0]), es[1..])
  }

  lemma {:induction false} QuietKeepsQueue(r: Room, es: seq<RunEvent>)
    requires forall k :: 0 <= k < |es| ==> IsQuiet(es[k])
    ensures AfterAll(r, es).mq == r.mq && AfterAll(r, es).windows == r.windows
    decreases |es|
  {
    if es != [] {
      if es[0].Ticked? { TickIsComposition(r, es[0].i); }
      QuietKeepsQueue(After(r, es[0]), es[1..]);
    }
  }

  /** A tick that polls shows a queued "leave", unless it also resolves a leave of a new user with the
      same descriptor. */
  lemma QueuedLeaveIsShown(s: Room, j: Input, fd: Fd)
    requires IsOrder(j.order) && WellFormedPools(s) && UserMessages(j) && !j.pollFails && fd !in s.leavePool
    ensures var t := Tick(s, j).state;
            |t.windows| == |s.windows| + 1 && Leaves(t.windows[|s.windows|], fd) == Leaves(s.mq, fd)
  {
    TickIsComposition(s, j);
    var h := HandleAll(Cleared(s), j.events);
    HandleAllEffect(Cleared(s), j.events, fd);
    HandleAllGrows(Cleared(s), j.events);
    PoolLeaves(h, j.order, j.now, fd);
    ResolvePoolGrows(h, j.order, j.now);
    var p := ResolvePool(h, j.order, j.now);
    LeavesWindow(p.cur, p.mq, fd);
    var b := BeforeDeletion(s, j);
    DeleteAllEffect(b, j.order(b.marked), j.now, j.names);
    assert Tick(s, j).state.windows == s.windows + [EmplaceAll([], p.mq)];
  }

  lemma {:induction false} AddAllKeepsPools(r: Room, fds: seq<Fd>, pool: map<Fd, Msg>)
    requires forall f :: f in fds ==> f in pool
    ensures AddAll(r, fds, pool).joinPool == r.joinPool && AddAll(r, fds, pool).leavePool == r.leavePool
    decreases |fds|
  {
    if fds != [] { AddAllKeepsPools(AddOne(r, fds[0], pool[fds[0]]), fds[1..], pool); }
  }

  lemma {:induction false} DropAllKeepsPools(r: Room, fds: seq<Fd>, pool: map<Fd, Msg>)
    requires forall f :: f in fds ==> f in pool
    ensures DropAll(r, fds, pool).joinPool == r.joinPool && DropAll(r, fds, pool).leavePool == r.leavePool
    decreases |fds|
  {
    if fds != [] { DropAllKeepsPools(DropOne(r, fds[0], pool[fds[0]]), fds[1..], pool); }
  }

  lemma {:induction false} DeleteAllKeepsPools(r: Room, fds: seq<Fd>, now: nat, names: map<Fd, string>)
    ensures var d := DeleteAll(r, fds, now, names); d.joinPool == r.joinPool && d.leavePool == r.leavePool
    decreases |fds|
  {
    if fds != [] { DeleteAllKeepsPools(DeleteOne(r, fds[0], now, names), fds[1..], now, names); }
  }

  /** A tick that polls leaves no pending join or leave. */
  lemma TickEmptiesPools(r: Room, i: Input)
    requires !i.pollFails
    ensures Tick(r, i).state.joinPool == map[] && Tick(r, i).state.leavePool == map[]
  {
    TickIsComposition(r, i);
    var h, order := HandleAll(Cleared(r), i.events), i.order;
    AddAllKeepsPools(h.(joinPool := map[]), Restricted(order(h.joinPool.Keys), h.joinPool.Keys), h.joinPool);
    var j := Joined(h, order);
    DropAllKeepsPools(j.(leavePool := map[]), Restricted(order(j.leavePool.Keys), j.leavePool.Keys), j.leavePool);
    var b := BeforeDeletion(r, i);
    DeleteAllKeepsPools(b, order(b.marked), i.now, i.names);
  }

  /** The posts of the server: joins never say "leave", and leaves are those of their own descriptor. */
  predicate WellPosted(e: RunEvent) {
    (e.JoinPosted? ==> e.m.text != "leave") && (e.LeavePosted? ==> IsLeave(e.m, e.fd))
  }

  lemma {:induction false} QuietKeepsPools(r: Room, es: seq<RunEvent>, fd: Fd)
    requires forall k :: 0 <= k < |es| ==> IsQuiet(es[k]) && WellPosted(es[k])
    requires forall k :: 0 <= k < |es| ==> !(es[k].LeavePosted? && es[k].fd == fd)
    requires WellFormedPools(r) && fd !in r.leavePool
    ensures WellFormedPools(AfterAll(r, es)) && fd !in AfterAll(r, es).leavePool
    decreases |es|
  {
    if es != [] {
      var e, next := es[0], After(r, es[0]);
      if e.Ticked? { TickIsComposition(r, e.i); }
      assert WellPosted(e) && WellFormedPools(next) && fd !in next.leavePool;
      QuietKeepsPools(next, es[1..], fd);
    }
  }

  /** The "leave" of a deleted descriptor is in the window of the next tick that polls, once, when the
      server posts no leave for that descriptor in between. */
  lemma LeaveShownNextTick(r: Room, i: Input, es: seq<RunEvent>, j: Input, fd: Fd)
    requires IsOrder(i.order) && WellFormedPools(r) && UserMessages(i) && !i.pollFails && MarkedInTick(r, i, fd)
    requires forall k :: 0 <= k < |es| ==> IsQuiet(es[k]) && WellPosted(es[k])
    requires forall k :: 0 <= k < |es| ==> !(es[k].LeavePosted? && es[k].fd == fd)
    requires IsOrder(j.order) && UserMessages(j) && !j.pollFails
    ensures var s := AfterAll(Tick(r, i).state, es);
            var t := Tick(s, j).state;
            |t.windows| == |s.windows| + 1 && Leaves(t.windows[|s.windows|], fd) == 1
  {
    DeletedWithinTick(r, i, fd);
    TickEmptiesPools(r, i);
    var s := AfterAll(Tick(r, i).state, es);
    QuietKeepsQueue(Tick(r, i).state, es);
    QuietKeepsPools(Tick(r, i).state, es, fd);
    QueuedLeaveIsShown(s, j, fd);
  }
}
