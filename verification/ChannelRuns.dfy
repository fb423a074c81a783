/** Whole runs of one channel: joins and leaves posted by the server at any time, and ticks, some of
    them aborted by a polling error. */
module ChannelRuns {
  import opened MessageWindows
  import opened ChannelRoom
  import opened ChannelTick

  datatype RunEvent = JoinPosted(fd: Fd, m: Msg) | LeavePosted(fd: Fd, m: Msg) | Ticked(i: Input)

  function After(r: Room, e: RunEvent): Room {
    match e
    case JoinPosted(fd, m) => Join(r, fd, m)
    case LeavePosted(fd, m) => Leave(r, fd, m)
    case Ticked(i) => Tick(r, i).state
  }

  function NewRoom(cap: nat, id: nat): Room {
    Room(id, cap, {}, {}, {}, map[], map[], [], [], false, 0, [], [], [])
  }

  function Run(cap: nat, id: nat, events: seq<RunEvent>): Room {
    if events == [] then NewRoom(cap, id) else After(Run(cap, id, events[..|events| - 1]), events[|events| - 1])
  }

  // ---------------------------------------------------------------- messages are only ever appended

  /** Between `r` and `later` only new messages were pushed; nothing was drained or broadcast. */
  predicate Grown(r: Room, later: Room) {
    && r.mq <= later.mq && later.pushed == r.pushed + later.mq[|r.mq|..]
    && later.cur == r.cur && later.batches == r.batches && later.windows == r.windows
  }

  lemma GrownTrans(a: Room, b: Room, c: Room)
    requires Grown(a, b) && Grown(b, c)
    ensures Grown(a, c)
  {
    assert c.mq[|a.mq|..] == b.mq[|a.mq|..] + c.mq[|b.mq|..];
  }

  lemma {:induction false} PushAllIs(r: Room, msgs: seq<Msg>)
    ensures PushAll(r, msgs) == r.(mq := r.mq + msgs, pushed := r.pushed + msgs)
    decreases |msgs|
  {
    if msgs != [] {
      PushAllIs(Push(r, msgs[0]), msgs[1..]);
      assert (r.mq + [msgs[0]]) + msgs[1..] == r.mq + msgs;
      assert (r.pushed + [msgs[0]]) + msgs[1..] == r.pushed + msgs;
    } else {
      assert r.mq + [] == r.mq && r.pushed + [] == r.pushed;
    }
  }

  lemma PushAllGrows(r: Room, msgs: seq<Msg>)
    ensures Grown(r, PushAll(r, msgs)) && PushAll(r, msgs).mq == r.mq + msgs
    ensures PushAll(r, msgs) == r.(mq := r.mq + msgs, pushed := r.pushed + msgs)
  {
    PushAllIs(r, msgs);
    assert (r.mq + msgs)[|r.mq|..] == msgs;
  }

  lemma {:induction false} HandleAllGrows(r: Room, events: seq<Event>)
    ensures Grown(r, HandleAll(r, events))
    decreases |events|
  {
    if events == [] {
      assert r.pushed + [] == r.pushed;
    } else {
      if events[0].Chat? { PushAllGrows(r.(rbuf := r.rbuf + {events[0].fd}), events[0].msgs); }
      assert Grown(r, Handle(r, events[0])) by { assert r.pushed + [] == r.pushed; }
      HandleAllGrows(Handle(r, events[0]), events[1..]);
      GrownTrans(r, Handle(r, events[0]), HandleAll(r, events));
    }
  }

  lemma {:induction false} AddAllGrows(r: Room, fds: seq<Fd>, pool: map<Fd, Msg>)
    requires forall fd :: fd in fds ==> fd in pool
    ensures Grown(r, AddAll(r, fds, pool))
    decreases |fds|
  {
    if fds == [] {
      assert r.pushed + [] == r.pushed;
    } else {
      var next := AddOne(r, fds[0], pool[fds[0]]);
      assert Grown(r, next) by { assert r.pushed + [] == r.pushed; }
      AddAllGrows(next, fds[1..], pool);
      GrownTrans(r, next, AddAll(r, fds, pool));
    }
  }

  lemma {:induction false} DropAllGrows(r: Room, fds: seq<Fd>, pool: map<Fd, Msg>)
    requires forall fd :: fd in fds ==> fd in pool
    ensures Grown(r, DropAll(r, fds, pool))
    decreases |fds|
  {
    if fds == [] {
      assert r.pushed + [] == r.pushed;
    } else {
      var next := DropOne(r, fds[0], pool[fds[0]]);
      assert Grown(r, next) by { assert r.pushed + [] == r.pushed; }
      DropAllGrows(next, fds[1..], pool);
      GrownTrans(r, next, DropAll(r, fds, pool));
    }
  }

  /** The "leave" messages of a deletion, in deletion order. */
  function LeaveMsgs(fds: seq<Fd>, now: nat, names: map<Fd, string>): seq<Msg> {
    if fds == [] then [] else [LeaveMsg(fds[0], now, names)] + LeaveMsgs(fds[1..], now, names)
  }

  lemma {:induction false} DeleteAllEffect(r: Room, fds: seq<Fd>, now: nat, names: map<Fd, string>)
    ensures var d := DeleteAll(r, fds, now, names);
            && Grown(r, d) && d.mq == r.mq + LeaveMsgs(fds, now, names)
            && (forall fd :: fd in d.clients <==> fd in r.clients && fd !in fds)
            && (forall fd :: fd in d.rbuf <==> fd in r.rbuf && fd !in fds)
    decreases |fds|
  {
    if fds == [] {
      assert r.pushed + [] == r.pushed && r.mq + [] == r.mq;
    } else {
      var next := DeleteOne(r, fds[0], now, names);
      DeleteAllEffect(next, fds[1..], now, names);
      GrownTrans(r, next, DeleteAll(r, fds, now, names));
      assert (r.mq + [LeaveMsg(fds[0], now, names)]) + LeaveMsgs(fds[1..], now, names)
             == r.mq + LeaveMsgs(fds, now, names);
    }
  }

  lemma {:induction false} ResolvePoolGrows(r: Room, order: Order, now: nat)
    ensures Grown(r, ResolvePool(r, order, now))
  {
    AddAllGrows(r.(joinPool := map[]), Restricted(order(r.joinPool.Keys), r.joinPool.Keys), r.joinPool);
    var j := Joined(r, order);
    DropAllGrows(j.(leavePool := map[]), Restricted(order(j.leavePool.Keys), j.leavePool.Keys), j.leavePool);
    GrownTrans(r, j, Left(j, order));
  }

  // ---------------------------------------------------------------- exactly once

  function Concat(ss: seq<seq<Msg>>): seq<Msg> {
    if ss == [] then [] else Concat(ss[..|ss| - 1]) + ss[|ss| - 1]
  }

  /** Every message pushed is in exactly one drained batch or still queued, and each window is the
      stable sort of its batch. */
  ghost predicate Accounted(r: Room) {
    && Concat(r.batches) + r.mq == r.pushed
    && |r.windows| == |r.batches|
    && forall k :: 0 <= k < |r.windows| ==> r.windows[k] == EmplaceAll([], r.batches[k])
  }

  lemma GrownKeepsAccount(r: Room, later: Room)
    requires Accounted(r) && Grown(r, later)
    ensures Accounted(later)
  {
    assert later.mq == r.mq + later.mq[|r.mq|..];
    assert Concat(r.batches) + (r.mq + later.mq[|r.mq|..]) == (Concat(r.batches) + r.mq) + later.mq[|r.mq|..];
  }

  lemma BroadcastKeepsAccount(r: Room, links: Links)
    requires Accounted(r) && r.cur == []
    ensures Accounted(Broadcast(r, links))
  {
    var b := Broadcast(r, links);
    assert b.batches[..|b.batches| - 1] == r.batches;
    assert b.pushed + [] == b.pushed;
  }

  lemma TickKeepsAccount(r: Room, i: Input)
    requires Accounted(r)
    ensures Accounted(Tick(r, i).state)
  {
    TickIsComposition(r, i);
    var c := Cleared(r);
    assert Accounted(c);
    if !i.pollFails {
      var h := HandleAll(c, i.events);
      HandleAllGrows(c, i.events);
      GrownKeepsAccount(c, h);
      var p := ResolvePool(h, i.order, i.now);
      ResolvePoolGrows(h, i.order, i.now);
      GrownKeepsAccount(h, p);
      BroadcastKeepsAccount(p, i.links);
      var b := Broadcast(p, i.links);
      DeleteAllEffect(b, i.order(b.marked), i.now, i.names);
      GrownKeepsAccount(b, ResolveDeletion(b, i.order, i.now, i.names));
    }
  }

  lemma {:induction false} RunIsAccounted(cap: nat, id: nat, events: seq<RunEvent>)
    ensures Accounted(Run(cap, id, events))
  {
    if events != [] {
      RunIsAccounted(cap, id, events[..|events| - 1]);
      var r, e := Run(cap, id, events[..|events| - 1]), events[|events| - 1];
      match e
      case Ticked(i) => TickKeepsAccount(r, i);
      case JoinPosted(fd, m) => assert Accounted(Join(r, fd, m));
      case LeavePosted(fd, m) => assert Accounted(Leave(r, fd, m));
    }
  }

  lemma {:induction false} SameElements(batches: seq<seq<Msg>>, windows: seq<seq<Msg>>)
    requires |windows| == |batches| && forall k :: 0 <= k < |windows| ==> windows[k] == EmplaceAll([], batches[k])
    ensures multiset(Concat(windows)) == multiset(Concat(batches))
  {
    if batches != [] {
      var n := |batches| - 1;
      SameElements(batches[..n], windows[..n]);
      WindowIsStableSort(batches[n]);
    }
  }

  /** Over any run, including aborted ticks, the messages in all windows plus the queue are those pushed,
      and the windows are the stable timestamp sorts of consecutive batches of the pushed messages. */
  lemma {:induction false} ExactlyOnce(cap: nat, id: nat, events: seq<RunEvent>)
    ensures var r := Run(cap, id, events);
            && multiset(Concat(r.windows)) + multiset(r.mq) == multiset(r.pushed)
            && |r.windows| == |r.batches| && Concat(r.batches) + r.mq == r.pushed
            && forall k :: 0 <= k < |r.windows| ==> StableSortOf(r.batches[k], r.windows[k])
  {
    var r := Run(cap, id, events);
    RunIsAccounted(cap, id, events);
    SameElements(r.batches, r.windows);
    forall k | 0 <= k < |r.windows| ensures StableSortOf(r.batches[k], r.windows[k]) {
      WindowIsStableSort(r.batches[k]);
    }
  }

  lemma {:induction false} EmplaceSenderLength(w: seq<Msg>, m: Msg, fd: Fd)
    ensures |FromSender(Emplace(w, m), fd)| == |FromSender(w, fd)| + if m.from == fd then 1 else 0
  {
    if w == [] || m.timestamp < w[0].timestamp {
      assert ([m] + w)[1..] == w;
    } else {
      EmplaceSenderLength(w[1..], m, fd);
      assert ([w[0]] + Emplace(w[1..], m))[1..] == Emplace(w[1..], m);
    }
  }

  lemma {:induction false} WindowSenderLength(w: seq<Msg>, q: seq<Msg>, fd: Fd)
    ensures |FromSender(EmplaceAll(w, q), fd)| == |FromSender(w, fd)| + |FromSender(q, fd)|
    decreases |q|
  {
    if q != [] {
      EmplaceSenderLength(w, q[0], fd);
      WindowSenderLength(Emplace(w, q[0]), q[1..], fd);
    }
  }

  lemma {:induction false} SenderOfSorted(w: seq<Msg>, fd: Fd)
    requires Sorted(w)
    ensures Sorted(FromSender(w, fd))
  {
    if w != [] {
      SenderOfSorted(w[1..], fd);
      var later := FromSender(w[1..], fd);
      forall k | 0 <= k < |later| ensures w[0].timestamp <= later[k].timestamp {
        SenderIsIn(w[1..], fd, k);
      }
    }
  }

  /** In one window a sender's order survives exactly when its messages were queued in timestamp order. */
  lemma WindowSenderExactly(q: seq<Msg>, fd: Fd)
    ensures FromSender(EmplaceAll([], q), fd) == FromSender(q, fd) <==> Sorted(FromSender(q, fd))
  {
    if Sorted(FromSender(q, fd)) {
      assert [] + FromSender(q, fd) == FromSender(q, fd);
      WindowKeepsSender([], q, fd);
    }
    WindowIsStableSort(q);
    SenderOfSorted(EmplaceAll([], q), fd);
  }

  ghost predicate OrderedBatches(batches: seq<seq<Msg>>, fd: Fd) {
    forall k :: 0 <= k < |batches| ==> Sorted(FromSender(batches[k], fd))
  }

  lemma OrderedInit(batches: seq<seq<Msg>>, fd: Fd)
    requires batches != []
    ensures var n := |batches| - 1;
            OrderedBatches(batches, fd) <==> OrderedBatches(batches[..n], fd) && Sorted(FromSender(batches[n], fd))
  {
    var n := |batches| - 1;
    assert forall k :: 0 <= k < n ==> batches[..n][k] == batches[k];
  }

  lemma {:induction false} SenderInWindows(batches: seq<seq<Msg>>, windows: seq<seq<Msg>>, fd: Fd)
    requires |windows| == |batches| && forall k :: 0 <= k < |windows| ==> windows[k] == EmplaceAll([], batches[k])
    ensures |FromSender(Concat(windows), fd)| == |FromSender(Concat(batches), fd)|
    ensures FromSender(Concat(windows), fd) == FromSender(Concat(batches), fd) <==> OrderedBatches(batches, fd)
  {
    if batches != [] {
      var n := |batches| - 1;
      SenderAppend(Concat(batches[..n]), batches[n], fd);
      SenderAppend(Concat(windows[..n]), windows[n], fd);
      SenderInWindows(batches[..n], windows[..n], fd);
      WindowSenderLength([], batches[n], fd);
      WindowSenderExactly(batches[n], fd);
      EqualHalves(FromSender(Concat(windows[..n]), fd), FromSender(Concat(batches[..n]), fd),
                  FromSender(windows[n], fd), FromSender(batches[n], fd));
      OrderedInit(batches, fd);
    }
  }

  lemma EqualHalves(a: seq<Msg>, b: seq<Msg>, c: seq<Msg>, d: seq<Msg>)
    requires |a| == |b|
    ensures a + c == b + d <==> a == b && c == d
  {
    if a + c == b + d {
      assert a == (a + c)[..|a|] && b == (b + d)[..|b|];
      assert c == (a + c)[|a|..] && d == (b + d)[|b|..];
    }
  }

  /** A sender is seen in its own order across the whole run (all windows, then the queue, give its
      messages as pushed) exactly when within every drained batch its timestamps do not decrease. */
  lemma {:induction false} SenderOrderExactly(cap: nat, id: nat, events: seq<RunEvent>, fd: Fd)
    ensures var r := Run(cap, id, events);
            FromSender(Concat(r.windows), fd) + FromSender(r.mq, fd) == FromSender(r.pushed, fd)
            <==> OrderedBatches(r.batches, fd)
  {
    var r := Run(cap, id, events);
    RunIsAccounted(cap, id, events);
    SenderAppend(Concat(r.batches), r.mq, fd);
    SenderInWindows(r.batches, r.windows, fd);
    EqualHalves(FromSender(Concat(r.windows), fd), FromSender(Concat(r.batches), fd),
                FromSender(r.mq, fd), FromSender(r.mq, fd));
  }

  lemma SortedParts(a: seq<Msg>, b: seq<Msg>)
    requires Sorted(a + b)
    ensures Sorted(a) && Sorted(b)
  {
    forall i, j | 0 <= i < j < |a| ensures a[i].timestamp <= a[j].timestamp {
      assert (a + b)[i] == a[i] && (a + b)[j] == a[j];
    }
    forall i, j | 0 <= i < j < |b| ensures b[i].timestamp <= b[j].timestamp {
      assert (a + b)[|a| + i] == b[i] && (a + b)[|a| + j] == b[j];
    }
  }

  lemma {:induction false} OrderedIfSorted(batches: seq<seq<Msg>>, fd: Fd)
    requires Sorted(FromSender(Concat(batches), fd))
    ensures OrderedBatches(batches, fd)
  {
    if batches != [] {
      var n := |batches| - 1;
      SenderAppend(Concat(batches[..n]), batches[n], fd);
      var a, b := FromSender(Concat(batches[..n]), fd), FromSender(batches[n], fd);
      SortedParts(a, b);
      OrderedIfSorted(batches[..n], fd);
      OrderedInit(batches, fd);
    }
  }

  /** In particular a sender whose messages carry nondecreasing timestamps keeps its order. */
  lemma {:induction false} SenderOrderIsKept(cap: nat, id: nat, events: seq<RunEvent>, fd: Fd)
    requires Sorted(FromSender(Run(cap, id, events).pushed, fd))
    ensures var r := Run(cap, id, events);
            FromSender(Concat(r.windows), fd) + FromSender(r.mq, fd) == FromSender(r.pushed, fd)
  {
    var r := Run(cap, id, events);
    RunIsAccounted(cap, id, events);
    SenderAppend(Concat(r.batches), r.mq, fd);
    var a, b := FromSender(Concat(r.batches), fd), FromSender(r.mq, fd);
    SortedParts(a, b);
    OrderedIfSorted(r.batches, fd);
    SenderOrderExactly(cap, id, events, fd);
  }
}
