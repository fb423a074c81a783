/** What a tick announces: the window of a tick that polls is the stable sort of what was queued, what its
    clients said, the joins it resolved and the leaves it resolved, in that order and nothing else. */
module ChannelWindow {
  import opened MessageWindows
  import opened ChannelRoom
  import opened ChannelTick
  import opened ChannelRuns
  import opened Collections

  /** The pool's messages for these descriptors. */
  function PostsOf(fds: seq<Fd>, pool: map<Fd, Msg>): seq<Msg>
    requires forall fd :: fd in fds ==> fd in pool
  {
    seq(|fds|, k requires 0 <= k < |fds| => var f := fds[k]; assert f in fds; pool[f])
  }

  lemma PostsCons(fd: Fd, rest: seq<Fd>, pool: map<Fd, Msg>)
    requires fd in pool && forall f :: f in rest ==> f in pool
    ensures forall f :: f in [fd] + rest ==> f in pool
    ensures PostsOf([fd] + rest, pool) == [pool[fd]] + PostsOf(rest, pool)
  {
  }

  lemma {:induction false} RestrictedIsDistinct(fds: seq<Fd>, keys: set<Fd>)
    requires NoDuplicates(fds)
    ensures NoDuplicates(Restricted(fds, keys))
  {
    if fds != [] {
      var f, rest := fds[0], fds[1..];
      assert forall k :: 0 <= k < |rest| ==> rest[k] == fds[k + 1];
      RestrictedIsDistinct(rest, keys);
      assert f !in rest;
      if f in keys { assert Restricted(fds, keys) == [f] + Restricted(rest, keys); }
    }
  }

  // ---------------------------------------------------------------- joins and leaves

  /** Within the limit, adding announces exactly those that are not clients yet, once each. */
  lemma {:induction false} AddAllAnnounces(r: Room, fds: seq<Fd>, pool: map<Fd, Msg>, absent: set<Fd>)
    requires NoDuplicates(fds) && |r.clients| + |fds| <= r.cap
    requires forall fd :: fd in fds ==> fd in pool && (fd in absent <==> fd !in r.clients)
    ensures AddAll(r, fds, pool).mq == r.mq + PostsOf(Restricted(fds, absent), pool)
    decreases |fds|
  {
    if fds == [] {
      assert r.mq + PostsOf([], pool) == r.mq;
    } else {
      var f, rest := fds[0], fds[1..];
      var next := AddOne(r, f, pool[f]);
      assert f in fds && fds == [f] + rest;
      assert forall k :: 0 <= k < |rest| ==> rest[k] == fds[k + 1];
      AddOneAdds(r, f, pool[f]);
      AddAllAnnounces(next, rest, pool, absent);
      if f in absent {
        PostsCons(f, Restricted(rest, absent), pool);
        Regroup(r.mq, [pool[f]], PostsOf(Restricted(rest, absent), pool));
      } else {
        assert Restricted(fds, absent) == Restricted(rest, absent);
      }
    }
  }

  /** Dropping announces exactly those that are clients, once each. */
  lemma {:induction false} DropAllAnnounces(r: Room, fds: seq<Fd>, pool: map<Fd, Msg>, present: set<Fd>)
    requires NoDuplicates(fds)
    requires forall fd :: fd in fds ==> fd in pool && (fd in present <==> fd in r.clients)
    ensures DropAll(r, fds, pool).mq == r.mq + PostsOf(Restricted(fds, present), pool)
    ensures forall fd :: fd in DropAll(r, fds, pool).clients <==> fd in r.clients && fd !in fds
    decreases |fds|
  {
    if fds == [] {
      assert r.mq + PostsOf([], pool) == r.mq;
    } else {
      var f, rest := fds[0], fds[1..];
      var next := DropOne(r, f, pool[f]);
      assert f in fds && fds == [f] + rest;
      assert forall k :: 0 <= k < |rest| ==> rest[k] == fds[k + 1];
      DropAllAnnounces(next, rest, pool, present);
      if f in present {
        PostsCons(f, Restricted(rest, present), pool);
        Regroup(r.mq, [pool[f]], PostsOf(Restricted(rest, present), pool));
      } else {
        assert Restricted(fds, present) == Restricted(rest, present);
      }
    }
  }

  /** `resolve_pool` pushes the posted message of every pending join that is not a client yet, once each, and
      nothing else for the joins. */
  lemma JoinsAreAnnounced(r: Room, order: Order) returns (js: seq<Fd>)
    requires IsOrder(order) && Within(r)
    ensures NoDuplicates(js) && forall fd :: fd in js <==> fd in r.joinPool && fd !in r.clients
    ensures Joined(r, order).mq == r.mq + PostsOf(js, r.joinPool)
    ensures Joined(r, order).clients == r.clients + r.joinPool.Keys && Joined(r, order).leavePool == r.leavePool
  {
    var keys := r.joinPool.Keys;
    var absent := keys - r.clients;
    js := Restricted(order(keys), absent);
    PendingJoinsArrive(r, order);
    RestrictedIsAll(order(keys), keys);
    RestrictedIsDistinct(order(keys), absent);
    OrderSize(order, keys);
    assert |r.joinPool| == |keys|;
    AddAllAnnounces(r.(joinPool := map[]), order(keys), r.joinPool, absent);
    AddAllKeepsLeaves(r.(joinPool := map[]), order(keys), r.joinPool);
  }

  lemma {:induction false} AddAllKeepsLeaves(r: Room, fds: seq<Fd>, pool: map<Fd, Msg>)
    requires forall f :: f in fds ==> f in pool
    ensures AddAll(r, fds, pool).leavePool == r.leavePool
    decreases |fds|
  {
    if fds != [] { AddAllKeepsLeaves(AddOne(r, fds[0], pool[fds[0]]), fds[1..], pool); }
  }

  /** The same for the leaves of those that are clients, who are clients no longer. */
  lemma LeavesAreAnnounced(r: Room, order: Order) returns (ls: seq<Fd>)
    requires IsOrder(order)
    ensures NoDuplicates(ls) && forall fd :: fd in ls <==> fd in r.leavePool && fd in r.clients
    ensures Left(r, order).mq == r.mq + PostsOf(ls, r.leavePool)
    ensures forall fd :: fd in Left(r, order).clients <==> fd in r.clients && fd !in r.leavePool
  {
    var keys := r.leavePool.Keys;
    var present := keys * r.clients;
    ls := Restricted(order(keys), present);
    RestrictedIsAll(order(keys), keys);
    RestrictedIsDistinct(order(keys), present);
    DropAllAnnounces(r.(leavePool := map[]), order(keys), r.leavePool, present);
  }

  // ---------------------------------------------------------------- what clients say

  /** The messages of the tick's chat events, event by event. */
  function Said(events: seq<Event>): seq<Msg> {
    Flatten(seq(|events|, k requires 0 <= k < |events| => SaidIn(events[k])))
  }

  function SaidIn(e: Event): seq<Msg> {
    if e.Chat? then e.msgs else []
  }

  lemma SaidCons(e: Event, rest: seq<Event>)
    ensures Said([e] + rest) == SaidIn(e) + Said(rest)
  {
    var events := [e] + rest;
    var all := seq(|events|, k requires 0 <= k < |events| => SaidIn(events[k]));
    assert all[1..] == seq(|rest|, k requires 0 <= k < |rest| => SaidIn(rest[k]));
  }

  /** All of them are queued, in the order of the events and within each event. */
  lemma {:induction false} EverythingSaidIsQueued(r: Room, events: seq<Event>)
    ensures var h := HandleAll(r, events);
            && h.mq == r.mq + Said(events) && h.clients == r.clients && h.cap == r.cap && h.id == r.id
            && h.joinPool == r.joinPool && h.leavePool == r.leavePool && h.cur == r.cur && h.windows == r.windows
    decreases |events|
  {
    if events == [] {
      assert Said(events) == [] && r.mq + [] == r.mq;
    } else {
      var e, rest := events[0], events[1..];
      assert events == [e] + rest;
      SaidCons(e, rest);
      if e.Chat? { PushAllIs(r.(rbuf := r.rbuf + {e.fd}), e.msgs); }
      EverythingSaidIsQueued(Handle(r, e), rest);
      Regroup(r.mq, SaidIn(e), Said(rest));
      assert r.mq + [] == r.mq;
    }
  }

  // ---------------------------------------------------------------- the window of a tick

  /** The batch that a polling tick drains. */
  function BatchOf(r: Room, events: seq<Event>, js: seq<Fd>, ls: seq<Fd>): seq<Msg>
    requires forall fd :: fd in js ==> fd in r.joinPool
    requires forall fd :: fd in ls ==> fd in r.leavePool
  {
    r.mq + Said(events) + PostsOf(js, r.joinPool) + PostsOf(ls, r.leavePool)
  }

  /** The window of a polling tick is the stable sort of the queue, of what clients said, and of the posted
      messages of exactly the joins and leaves that took effect. */
  lemma TickWindow(r: Room, i: Input) returns (js: seq<Fd>, ls: seq<Fd>)
    requires IsOrder(i.order) && !i.pollFails && Within(r)
    ensures NoDuplicates(js) && forall fd :: fd in js <==> fd in r.joinPool && fd !in r.clients
    ensures NoDuplicates(ls) && forall fd :: fd in ls <==> fd in r.leavePool && (fd in r.clients || fd in r.joinPool)
    ensures |Tick(r, i).state.windows| == |r.windows| + 1
    ensures StableSortOf(BatchOf(r, i.events, js, ls), Tick(r, i).state.windows[|r.windows|])
    ensures multiset(Tick(r, i).state.windows[|r.windows|]) == multiset(BatchOf(r, i.events, js, ls))
  {
    TickIsComposition(r, i);
    var h := HandleAll(Cleared(r), i.events);
    EverythingSaidIsQueued(Cleared(r), i.events);
    js := JoinsAreAnnounced(h, i.order);
    var j := Joined(h, i.order);
    ls := LeavesAreAnnounced(j, i.order);
    ResolvePoolGrows(h, i.order, i.now);
    var p := ResolvePool(h, i.order, i.now);
    assert p.mq == BatchOf(r, i.events, js, ls);
    WindowIsStableSort(p.mq);
    var b := BeforeDeletion(r, i);
    DeleteAllEffect(b, i.order(b.marked), i.now, i.names);
    assert Tick(r, i).state.windows == r.windows + [EmplaceAll([], p.mq)];
  }

  lemma InBatch(batch: seq<Msg>, w: seq<Msg>, m: Msg)
    requires multiset(w) == multiset(batch) && m in batch
    ensures m in w
  {
    assert m in multiset(batch);
  }

  /** A join that takes effect is in the window of the same tick, with the message it was posted with. */
  lemma JoinIsShown(r: Room, i: Input, fd: Fd)
    requires IsOrder(i.order) && !i.pollFails && Within(r) && fd in r.joinPool && fd !in r.clients
    ensures |Tick(r, i).state.windows| == |r.windows| + 1
    ensures r.joinPool[fd] in Tick(r, i).state.windows[|r.windows|]
  {
    var js, ls := TickWindow(r, i);
    var k :| 0 <= k < |js| && js[k] == fd;
    assert PostsOf(js, r.joinPool)[k] == r.joinPool[fd];
    InBatch(BatchOf(r, i.events, js, ls), Tick(r, i).state.windows[|r.windows|], r.joinPool[fd]);
  }

  /** So is the leave of a client. */
  lemma LeaveIsShown(r: Room, i: Input, fd: Fd)
    requires IsOrder(i.order) && !i.pollFails && Within(r) && fd in r.leavePool && fd in r.clients
    ensures |Tick(r, i).state.windows| == |r.windows| + 1
    ensures r.leavePool[fd] in Tick(r, i).state.windows[|r.windows|]
  {
    var js, ls := TickWindow(r, i);
    var k :| 0 <= k < |ls| && ls[k] == fd;
    assert PostsOf(ls, r.leavePool)[k] == r.leavePool[fd];
    InBatch(BatchOf(r, i.events, js, ls), Tick(r, i).state.windows[|r.windows|], r.leavePool[fd]);
  }
}
