/** One channel: the data its worker and the server share, the operations of `channel.cpp` and
    `chat_server.cpp` on it as functions, and the class whose methods carry them out. */
module ChannelRoom {
  import opened MessageWindows
  import opened WindowJson
  import C = Communication
  import HexHeader

  /** The iteration order of an unordered container, which nothing may depend on. */
  type Order = set<Fd> -> seq<Fd>

  predicate NoDuplicates(s: seq<Fd>) {
    forall i, j :: 0 <= i < j < |s| ==> s[i] != s[j]
  }

  ghost predicate IsOrder(order: Order) {
    forall s: set<Fd> :: NoDuplicates(order(s)) && forall fd :: fd in order(s) <==> fd in s
  }

  /** `pushed`, `batches` and `windows` record what was ever pushed to `mq`, drained and broadcast. */
  datatype Room = Room(
    id: nat, cap: nat, clients: set<Fd>, rbuf: set<Fd>, marked: set<Fd>,
    joinPool: map<Fd, Msg>, leavePool: map<Fd, Msg>, mq: seq<Msg>, cur: seq<Msg>,
    stop: bool, emptySince: nat,
    pushed: seq<Msg>, batches: seq<seq<Msg>>, windows: seq<seq<Msg>>)

  // ---------------------------------------------------------------- the operations

  function Push(r: Room, m: Msg): Room {
    r.(mq := r.mq + [m], pushed := r.pushed + [m])
  }

  /** `unordered_map::emplace`: an entry that is already there stays. */
  function Post(pool: map<Fd, Msg>, fd: Fd, m: Msg): map<Fd, Msg> {
    if fd in pool then pool else pool[fd := m]
  }

  function Leave(r: Room, fd: Fd, m: Msg): Room {
    r.(leavePool := Post(r.leavePool, fd, m))
  }

  function Join(r: Room, fd: Fd, m: Msg): Room {
    var running := if r.stop then r.(stop := false, emptySince := 0) else r;
    running.(joinPool := Post(r.joinPool, fd, m))
  }

  /** `ping_pool`. */
  predicate HasSpace(r: Room) {
    |r.clients| + |r.joinPool| < r.cap
  }

  function AddOne(r: Room, fd: Fd, m: Msg): Room {
    if |r.clients| < r.cap && fd !in r.clients then Push(r.(clients := r.clients + {fd}), m) else r
  }

  function DropOne(r: Room, fd: Fd, m: Msg): Room {
    if fd in r.clients then Push(r.(clients := r.clients - {fd}), m) else r
  }

  function AddAll(r: Room, fds: seq<Fd>, pool: map<Fd, Msg>): Room
    requires forall fd :: fd in fds ==> fd in pool
    decreases |fds|
  {
    if fds == [] then r else AddAll(AddOne(r, fds[0], pool[fds[0]]), fds[1..], pool)
  }

  function DropAll(r: Room, fds: seq<Fd>, pool: map<Fd, Msg>): Room
    requires forall fd :: fd in fds ==> fd in pool
    decreases |fds|
  {
    if fds == [] then r else DropAll(DropOne(r, fds[0], pool[fds[0]]), fds[1..], pool)
  }

  function Restricted(fds: seq<Fd>, keys: set<Fd>): (s: seq<Fd>)
    ensures forall fd :: fd in s <==> fd in fds && fd in keys
  {
    if fds == [] then [] else (if fds[0] in keys then [fds[0]] else []) + Restricted(fds[1..], keys)
  }

  lemma {:induction false} RestrictedIsAll(fds: seq<Fd>, keys: set<Fd>)
    requires forall fd :: fd in fds ==> fd in keys
    ensures Restricted(fds, keys) == fds
  {
    if fds != [] {
      var fd := fds[0];
      assert fd in fds && fds == [fd] + fds[1..];
      RestrictedIsAll(fds[1..], keys);
    }
  }

  function Joined(r: Room, order: Order): Room {
    AddAll(r.(joinPool := map[]), Restricted(order(r.joinPool.Keys), r.joinPool.Keys), r.joinPool)
  }

  function Left(r: Room, order: Order): Room {
    DropAll(r.(leavePool := map[]), Restricted(order(r.leavePool.Keys), r.leavePool.Keys), r.leavePool)
  }

  function MaybeStopped(r: Room, now: nat): Room {
    if r.clients == {} && r.joinPool == map[] then r.(stop := true, emptySince := now) else r
  }

  function ResolvePool(r: Room, order: Order, now: nat): Room {
    MaybeStopped(Left(Joined(r, order), order), now)
  }

  /** How the kernel answers the sends to each descriptor. */
  type Links = Fd -> C.Link

  /** The clients to which a frame of `n` bytes is not sent. */
  function Failed(n: nat, clients: set<Fd>, links: Links): set<Fd> {
    set fd | fd in clients && !C.Delivers(n, links(fd))
  }

  function ToSet(fds: seq<Fd>): set<Fd> { set fd | fd in fds }

  lemma FailedIs(failed: seq<Fd>, n: nat, clients: set<Fd>, links: Links)
    requires forall fd :: fd in failed <==> fd in clients && !C.Delivers(n, links(fd))
    ensures ToSet(failed) == Failed(n, clients, links)
  {
    forall fd ensures fd in ToSet(failed) <==> fd in Failed(n, clients, links) {
      assert fd in ToSet(failed) <==> fd in failed;
    }
  }

  /** `resolve_timestamps`. */
  function Drained(r: Room): Room {
    r.(cur := EmplaceAll(r.cur, r.mq), mq := [], batches := r.batches + [r.mq])
  }

  /** `resolve_broadcast`. */
  function WindowSent(r: Room, links: Links): Room {
    r.(windows := r.windows + [r.cur], marked := r.marked + Failed(|WindowText(r.cur, r.id)|, r.clients, links))
  }

  function Broadcast(r: Room, links: Links): Room {
    WindowSent(Drained(r), links)
  }

  function LeaveMsg(fd: Fd, now: nat, names: map<Fd, string>): Msg {
    Msg(fd, System, "leave", now, if fd in names then names[fd] else "unknown")
  }

  function DeleteOne(r: Room, fd: Fd, now: nat, names: map<Fd, string>): Room {
    Push(r, LeaveMsg(fd, now, names)).(clients := r.clients - {fd}, rbuf := r.rbuf - {fd})
  }

  function DeleteAll(r: Room, fds: seq<Fd>, now: nat, names: map<Fd, string>): Room
    decreases |fds|
  {
    if fds == [] then r else DeleteAll(DeleteOne(r, fds[0], now, names), fds[1..], now, names)
  }

  function ResolveDeletion(r: Room, order: Order, now: nat, names: map<Fd, string>): Room {
    DeleteAll(r, order(r.marked), now, names)
  }

  type Wires = map<Fd, seq<HexHeader.Byte>>

  /** The bytes of a text, as `send` sees them. */
  function Bytes(text: string): (b: seq<HexHeader.Byte>)
    ensures |b| == |text|
  {
    seq(|text|, i requires 0 <= i < |text| => text[i] as int % 256)
  }

  /** A payload as the text a client makes of it. */
  function TextOf(b: seq<HexHeader.Byte>): (text: string)
    ensures |text| == |b|
  {
    seq(|b|, i requires 0 <= i < |b| => b[i] as char)
  }

  /** A text of one-byte characters is the text of its bytes. */
  lemma BytesReadBack(text: string)
    requires forall i :: 0 <= i < |text| ==> text[i] < 256 as char
    ensures TextOf(Bytes(text)) == text
  {
  }

  // ---------------------------------------------------------------- what a free slot is worth

  /** Clients and pending joins together respect the limit. */
  predicate Within(r: Room) {
    |r.clients| + |r.joinPool| <= r.cap
  }

  /** `ping_pool` says yes exactly when one more join keeps clients and pending joins within the limit. */
  lemma OneMoreJoin(r: Room, fd: Fd, m: Msg)
    requires fd !in r.joinPool
    ensures HasSpace(r) <==> Within(Join(r, fd, m))
  {
    var pool := r.joinPool[fd := m];
    assert pool.Keys == r.joinPool.Keys + {fd};
    assert |pool| == |pool.Keys| && |r.joinPool| == |r.joinPool.Keys|;
  }

  lemma AddOneAdds(r: Room, fd: Fd, m: Msg)
    requires |r.clients| < r.cap
    ensures var a := AddOne(r, fd, m); a.clients == r.clients + {fd} && |a.clients| <= |r.clients| + 1 && a.cap == r.cap
  {
    if fd in r.clients { assert r.clients + {fd} == r.clients; }
  }

  lemma {:induction false} AddAllAdds(r: Room, fds: seq<Fd>, pool: map<Fd, Msg>)
    requires forall fd :: fd in fds ==> fd in pool
    requires |r.clients| + |fds| <= r.cap
    ensures AddAll(r, fds, pool).clients == r.clients + ToSet(fds)
    decreases |fds|
  {
    if fds == [] {
      assert ToSet(fds) == {};
    } else {
      var f := fds[0];
      assert f in fds;
      AddOneAdds(r, f, pool[f]);
      AddAllAdds(AddOne(r, f, pool[f]), fds[1..], pool);
      ToSetStep(fds);
      Reassociate(r.clients, {f}, ToSet(fds[1..]));
    }
  }

  lemma Reassociate<T>(a: set<T>, b: set<T>, c: set<T>)
    ensures (a + b) + c == a + (b + c)
  {
  }

  lemma ToSetStep(fds: seq<Fd>)
    requires fds != []
    ensures ToSet(fds) == {fds[0]} + ToSet(fds[1..])
  {
    assert fds == [fds[0]] + fds[1..];
  }

  /** Within the limit every pending join becomes a client when the pool is resolved, in any order. */
  lemma {:induction false} PendingJoinsArrive(r: Room, order: Order)
    requires IsOrder(order) && Within(r)
    ensures Joined(r, order).clients == r.clients + r.joinPool.Keys
  {
    var keys := r.joinPool.Keys;
    RestrictedIsAll(order(keys), keys);
    OrderSize(order, keys);
    assert |r.joinPool| == |keys|;
    AddAllAdds(r.(joinPool := map[]), order(keys), r.joinPool);
  }

  lemma OrderSize(order: Order, s: set<Fd>)
    requires IsOrder(order)
    ensures ToSet(order(s)) == s && |order(s)| == |s|
  {
    forall fd ensures fd in ToSet(order(s)) <==> fd in s {
      assert fd in ToSet(order(s)) <==> fd in order(s);
    }
    DistinctSize(order(s));
  }

  lemma FirstIsNew(fds: seq<Fd>)
    requires NoDuplicates(fds) && fds != []
    ensures NoDuplicates(fds[1..]) && fds[0] !in ToSet(fds[1..])
  {
    assert forall k :: 0 <= k < |fds[1..]| ==> fds[1..][k] == fds[k + 1];
  }

  lemma OneLarger<T>(x: T, s: set<T>)
    requires x !in s
    ensures |{x} + s| == |s| + 1
  {
    assert {x} * s == {};
  }

  lemma {:induction false} DistinctSize(fds: seq<Fd>)
    requires NoDuplicates(fds)
    ensures |ToSet(fds)| == |fds|
  {
    if fds == [] {
      assert ToSet(fds) == {};
    } else {
      FirstIsNew(fds);
      DistinctSize(fds[1..]);
      ToSetStep(fds);
      OneLarger(fds[0], ToSet(fds[1..]));
    }
  }

  lemma {:induction false} DeleteAllDeletes(r: Room, fds: seq<Fd>, now: nat, names: map<Fd, string>)
    ensures var d := DeleteAll(r, fds, now, names);
            && d.clients == r.clients - ToSet(fds) && d.rbuf == r.rbuf - ToSet(fds)
            && d.cur == r.cur && d.windows == r.windows
    decreases |fds|
  {
    if fds == [] {
      assert ToSet(fds) == {};
    } else {
      DeleteAllDeletes(DeleteOne(r, fds[0], now, names), fds[1..], now, names);
      ToSetStep(fds);
    }
  }

  // ---------------------------------------------------------------- the class

  class Channel {
    const id: nat
    const cap: nat
    var clients: set<Fd>
    var rbuf: set<Fd>
    var marked: set<Fd>
    var joinPool: map<Fd, Msg>
    var leavePool: map<Fd, Msg>
    var mq: seq<Msg>
    var cur: seq<Msg>
    var stop: bool
    var emptySince: nat
    /** `pool_mtx` is held by the server thread. */
    var held: bool
    ghost var pushed: seq<Msg>
    ghost var batches: seq<seq<Msg>>
    ghost var windows: seq<seq<Msg>>

    ghost function View(): Room
      reads this
    {
      Room(id, cap, clients, rbuf, marked, joinPool, leavePool, mq, cur, stop, emptySince, pushed, batches, windows)
    }

    constructor (id: nat, maxFd: nat)
      ensures View() == Room(id, maxFd, {}, {}, {}, map[], map[], [], [], false, 0, [], [], []) && !held
    {
      this.id, cap := id, maxFd;
      clients, rbuf, marked := {}, {}, {};
      joinPool, leavePool := map[], map[];
      mq, cur := [], [];
      stop, emptySince, held := false, 0, false;
      pushed, batches, windows := [], [], [];
    }

    method PushMessage(m: Msg)
      modifies this`mq, this`pushed
      ensures View() == Push(old(View()), m) && held == old(held) && mq == old(mq) + [m]
    {
      mq := mq + [m];
      pushed := pushed + [m];
    }

    method AddClient(fd: Fd) returns (ok: bool)
      modifies this`clients
      ensures ok <==> |old(clients)| < cap && fd !in old(clients)
      ensures clients == if ok then old(clients) + {fd} else old(clients)
    {
      if |clients| >= cap || fd in clients { return false; }
      clients := clients + {fd};
      ok := true;
    }

    method DeleteClient(fd: Fd) returns (ok: bool)
      modifies this`clients
      ensures ok <==> fd in old(clients)
      ensures clients == if ok then old(clients) - {fd} else old(clients)
    {
      if fd !in clients { return false; }
      clients := clients - {fd};
      ok := true;
    }

    /** `wait_stop_pooling` returns once the mutex is free. */
    method WaitStopPooling()
      requires !held
      modifies this`held
      ensures held
    {
      held := true;
    }

    method StartPooling()
      requires held
      modifies this`held
      ensures !held
    {
      held := false;
    }

    method PingPool() returns (free: bool)
      ensures free <==> HasSpace(View())
    {
      free := |clients| + |joinPool| < cap;
    }

    method LeaveChannel(fd: Fd, m: Msg)
      modifies this`leavePool
      ensures View() == Leave(old(View()), fd, m)
      ensures leavePool == if fd in old(leavePool) then old(leavePool) else old(leavePool)[fd := m]
    {
      if fd !in leavePool { leavePool := leavePool[fd := m]; }
    }

    method JoinChannel(fd: Fd, m: Msg)
      requires held
      modifies this`stop, this`emptySince, this`joinPool
      ensures View() == Join(old(View()), fd, m)
      ensures joinPool == if fd in old(joinPool) then old(joinPool) else old(joinPool)[fd := m]
      ensures !stop && emptySince == if old(stop) then 0 else old(emptySince)
    {
      if stop {
        stop := false;
        emptySince := 0;
      }
      if fd !in joinPool { joinPool := joinPool[fd := m]; }
    }

    /** The first half of `resolve_pool`: the join pool is moved out and added client by client. */
    method ResolveJoins(order: Order)
      modifies this
      ensures View() == Joined(old(View()), order) && held == old(held)
      ensures joinPool == map[] && leavePool == old(leavePool)
      ensures stop == old(stop) && emptySince == old(emptySince) && windows == old(windows)
    {
      var local := joinPool;
      joinPool := map[];
      var fds := Restricted(order(local.Keys), local.Keys);
      while fds != []
        invariant forall fd :: fd in fds ==> fd in local
        invariant AddAll(View(), fds, local) == Joined(old(View()), order) && held == old(held)
        invariant joinPool == map[] && leavePool == old(leavePool)
        invariant stop == old(stop) && emptySince == old(emptySince) && windows == old(windows)
        decreases |fds|
      {
        var fd := fds[0];
        var ok := AddClient(fd);
        if ok { PushMessage(local[fd]); }
        fds := fds[1..];
      }
    }

    /** The second half: the leave pool is moved out and its clients dropped. */
    method ResolveLeaves(order: Order)
      modifies this
      ensures View() == Left(old(View()), order) && held == old(held)
      ensures joinPool == old(joinPool) && leavePool == map[]
      ensures stop == old(stop) && emptySince == old(emptySince) && windows == old(windows)
    {
      var local := leavePool;
      leavePool := map[];
      var fds := Restricted(order(local.Keys), local.Keys);
      while fds != []
        invariant forall fd :: fd in fds ==> fd in local
        invariant DropAll(View(), fds, local) == Left(old(View()), order) && held == old(held)
        invariant joinPool == old(joinPool) && leavePool == map[]
        invariant stop == old(stop) && emptySince == old(emptySince) && windows == old(windows)
        decreases |fds|
      {
        var fd := fds[0];
        var ok := DeleteClient(fd);
        if ok { PushMessage(local[fd]); }
        fds := fds[1..];
      }
    }

    /** `resolve_pool`, under `pool_mtx`. */
    method ResolvePoolNow(order: Order, now: nat)
      modifies this
      ensures View() == ResolvePool(old(View()), order, now) && held == old(held)
      ensures joinPool == map[] && leavePool == map[] && windows == old(windows)
      ensures if clients == {} then stop && emptySince == now
              else stop == old(stop) && emptySince == old(emptySince)
    {
      ResolveJoins(order);
      ResolveLeaves(order);
      if |clients| == 0 && joinPool == map[] {
        stop := true;
        emptySince := now;
      }
    }

    method ResolveTimestamps()
      modifies this
      ensures View() == Drained(old(View())) && held == old(held)
    {
      var local := mq;
      mq := [];
      batches := batches + [local];
      var w := FillWindow(cur, local);
      cur := w;
    }

    /** `wires` is what the kernel accepted for each client. */
    method ResolveBroadcast(order: Order, links: Links) returns (wires: Wires)
      requires IsOrder(order)
      modifies this
      ensures View() == WindowSent(old(View()), links) && held == old(held)
      ensures clients == old(clients) && cur == old(cur) && marked == old(marked) + Missed(wires)
      ensures IsSent(wires)
    {
      var failed: seq<Fd>;
      failed, wires := SendWindow(order, links);
      MissedIs(failed, wires);
      FailedIs(failed, |WindowText(cur, id)|, clients, links);
      marked := marked + ToSet(failed);
      windows := windows + [cur];
    }

    method BroadcastWindow(order: Order, links: Links) returns (wires: Wires)
      requires IsOrder(order)
      modifies this
      ensures View() == Broadcast(old(View()), links) && held == old(held)
      ensures clients == old(clients) && marked == old(marked) + Missed(wires)
      ensures IsSent(wires) && windows == old(windows) + [cur]
    {
      ResolveTimestamps();
      wires := ResolveBroadcast(order, links);
    }

    /** Each client's connection holds a part of one frame with the text of the current window. */
    ghost predicate IsSent(wires: Wires)
      reads this`clients, this`cur
    {
      wires.Keys == clients && forall fd :: fd in wires ==> wires[fd] <= C.OnWire(Bytes(WindowText(cur, id)))
    }

    /** The clients whose connection does not hold all of it. */
    ghost function Missed(wires: Wires): set<Fd>
      reads this`cur
    {
      set fd | fd in wires && wires[fd] != C.OnWire(Bytes(WindowText(cur, id)))
    }

    lemma MissedIs(failed: seq<Fd>, wires: Wires)
      requires forall fd :: fd in failed <==> fd in wires && wires[fd] != C.OnWire(Bytes(WindowText(cur, id)))
      ensures ToSet(failed) == Missed(wires)
    {
      forall fd ensures fd in ToSet(failed) <==> fd in Missed(wires) {
        assert fd in ToSet(failed) <==> fd in failed;
      }
    }

    /** The window as one frame to every client; the clients that did not get all of it. */
    method SendWindow(order: Order, links: Links) returns (failed: seq<Fd>, wires: Wires)
      requires IsOrder(order)
      ensures forall fd :: fd in failed <==> fd in clients && !C.Delivers(|WindowText(cur, id)|, links(fd))
      ensures IsSent(wires)
      ensures forall fd :: fd in failed <==> fd in wires && wires[fd] != C.OnWire(Bytes(WindowText(cur, id)))
    {
      failed, wires := C.Broadcast(order(clients), Bytes(WindowText(cur, id)), links);
      assert forall fd :: fd in wires.Keys <==> fd in clients;
    }

    method ResolveDeletionNow(order: Order, now: nat, names: map<Fd, string>)
      modifies this
      ensures View() == ResolveDeletion(old(View()), order, now, names) && held == old(held)
      ensures cur == old(cur) && windows == old(windows)
      ensures IsOrder(order) ==> clients == old(clients) - old(marked) && rbuf == old(rbuf) - old(marked)
    {
      DeleteAllDeletes(View(), order(marked), now, names);
      if IsOrder(order) { OrderSize(order, marked); }
      var fds := order(marked);
      while fds != []
        invariant DeleteAll(View(), fds, now, names) == ResolveDeletion(old(View()), order, now, names)
        invariant held == old(held)
        decreases |fds|
      {
        var fd := fds[0];
        PushMessage(LeaveMsg(fd, now, names));
        assert fd !in clients ==> clients - {fd} == clients;
        var ok := DeleteClient(fd);
        rbuf := rbuf - {fd};
        fds := fds[1..];
      }
    }
  }
}
