/** The lobby server: its table of channels, placement of a new user, switch requests and the reaper, as
    methods on channel objects proved against functions on their values. Workers do not run here; how
    the same operations interleave with them is the subject of the protocol modules. */
module ChannelServer {
  import opened MessageWindows
  import opened ChannelRoom
  import opened ChannelRuns
  import opened Collections
  import P = ChannelProtocol

  type ChId = P.ChId
  type Rooms = map<ChId, Room>

  // ---------------------------------------------------------------- the operations on values

  function WithRoom(rooms: Rooms, cap: nat, id: ChId): Rooms {
    if id in rooms then rooms else rooms[id := NewRoom(cap, id)]
  }

  function SystemMsg(fd: Fd, text: string, timestamp: nat, name: string): Msg {
    Msg(fd, System, text, timestamp, name)
  }

  /** `join_and_logging`: nothing happens to a user without a name. */
  function Admit(r: Room, names: map<Fd, string>, fd: Fd, timestamp: nat, text: string): Room {
    if fd in names then Join(r, fd, SystemMsg(fd, text, timestamp, names[fd])) else r
  }

  /** `leave_and_logging`: a user without a name is deleted instead. */
  function Dismiss(r: Room, names: map<Fd, string>, fd: Fd, timestamp: nat): Room {
    if fd in names then Leave(r, fd, SystemMsg(fd, "leave", timestamp, names[fd]))
    else r.(marked := r.marked + {fd})
  }

  /** The table after a lobby user was placed in channel `id`. */
  function WithUser(rooms: Rooms, cap: nat, names: map<Fd, string>, fd: Fd, preferred: ChId, id: ChId,
                    timestamp: nat): Rooms {
    var known := WithRoom(WithRoom(rooms, cap, preferred), cap, id);
    known[id := Admit(known[id], names, fd, timestamp, "join")]
  }

  datatype SwitchReport = SwitchReport(fd: Fd, src: ChId, dst: ChId, timestamp: nat)

  function Known(rooms: Rooms, cap: nat, q: SwitchReport): Rooms {
    WithRoom(WithRoom(rooms, cap, q.src), cap, q.dst)
  }

  /** An admitted switch: into the join pool of the target, then into the leave pool of the source. */
  function Moved(rooms: Rooms, names: map<Fd, string>, q: SwitchReport): Rooms
    requires q.src in rooms && q.dst in rooms
  {
    var joined := rooms[q.dst := Admit(rooms[q.dst], names, q.fd, q.timestamp, "rejoin")];
    joined[q.src := Dismiss(joined[q.src], names, q.fd, q.timestamp)]
  }

  /** One report of `consume_report`. */
  function Switch(rooms: Rooms, cap: nat, names: map<Fd, string>, q: SwitchReport): Rooms {
    var known := Known(rooms, cap, q);
    if HasSpace(known[q.dst]) then Moved(known, names, q) else known
  }

  /** The loop of `consume_report`; `sent[i]` says whether an error frame to the i-th user would go out.
      `locked` is the channel whose lock an exception leaves behind. */
  datatype Consumed = Consumed(rooms: Rooms, locked: set<ChId>)

  function ConsumeAll(rooms: Rooms, cap: nat, names: map<Fd, string>, qs: seq<SwitchReport>, sent: seq<bool>): Consumed
    requires |sent| == |qs|
    decreases |qs|
  {
    if qs == [] then Consumed(rooms, {})
    else
      var known := Known(rooms, cap, qs[0]);
      if !HasSpace(known[qs[0].dst]) && !sent[0] then Consumed(known, {qs[0].dst})
      else ConsumeAll(Switch(rooms, cap, names, qs[0]), cap, names, qs[1..], sent[1..])
  }

  /** `check_channels` destroys a stopped channel with a nonzero stamp that looks old enough. */
  predicate Reapable(r: Room, now: nat) {
    r.stop && r.emptySince > 0 && P.ClockSub(now, r.emptySince) > 300000
  }

  function Reaped(rooms: Rooms, now: nat): Rooms {
    map id | id in rooms && !Reapable(rooms[id], now) :: rooms[id]
  }

  /** The table while `todo` is still to be inspected. */
  predicate ReapedSoFar(before: Rooms, rooms: Rooms, todo: set<ChId>, now: nat) {
    && todo <= rooms.Keys <= before.Keys && (forall k :: k in rooms ==> rooms[k] == before[k])
    && forall k :: k in before ==> (k in rooms <==> k in todo || !Reapable(before[k], now))
  }

  function Inspected(rooms: Rooms, id: ChId, now: nat): Rooms
    requires id in rooms
  {
    if Reapable(rooms[id], now) then rooms - {id} else rooms
  }

  lemma ReapStep(before: Rooms, rooms: Rooms, todo: set<ChId>, id: ChId, now: nat)
    requires ReapedSoFar(before, rooms, todo, now) && id in todo
    ensures id in rooms && ReapedSoFar(before, Inspected(rooms, id, now), todo - {id}, now)
  {
  }

  lemma ReapEnd(before: Rooms, rooms: Rooms, now: nat)
    requires ReapedSoFar(before, rooms, {}, now)
    ensures rooms == Reaped(before, now)
  {
    forall k ensures k in rooms <==> k in Reaped(before, now) {}
  }

  predicate FullExcept(rooms: Rooms, others: set<ChId>) {
    forall k :: k in rooms && k !in others ==> !HasSpace(rooms[k])
  }

  lemma OneMoreFull(rooms: Rooms, todo: set<ChId>, preferred: ChId, id: ChId)
    requires FullExcept(rooms, todo + {preferred}) && (id in rooms ==> !HasSpace(rooms[id]))
    ensures FullExcept(rooms, todo - {id} + {preferred})
  {
  }

  /** What `find_or_create_channel` promises about the channel it picks. */
  ghost predicate Placed(rooms: Rooms, cap: nat, preferred: ChId, id: ChId) {
    var known := WithRoom(rooms, cap, preferred);
    if HasSpace(known[preferred]) then id == preferred
    else if id in known then id != preferred && HasSpace(known[id])
    else (forall k :: k in known ==> !HasSpace(known[k])) && id >= 1 && forall k :: 1 <= k < id ==> k in known
  }

  // ---------------------------------------------------------------- the class

  class Server {
    const chMaxFd: nat
    var channels: map<ChId, Channel>
    var names: map<Fd, string>
    var clients: set<Fd>
    var lastAct: map<Fd, nat>

    ghost predicate Valid()
      reads this`channels, channels.Values
    {
      && (forall a, b :: a in channels && b in channels && a != b ==> channels[a] != channels[b])
      && (forall a :: a in channels ==> channels[a].cap == chMaxFd && channels[a].id == a)
    }

    ghost function Rooms(): Rooms
      reads this`channels, channels.Values
    {
      map id | id in channels :: channels[id].View()
    }

    /** The channels whose `pool_mtx` the server holds. */
    ghost function Held(): set<ChId>
      reads this`channels, channels.Values
    {
      set id | id in channels && channels[id].held
    }

    constructor (chMaxFd: nat)
      ensures Valid() && this.chMaxFd == chMaxFd && Rooms() == map[] && Held() == {}
      ensures channels == map[] && names == map[] && clients == {} && lastAct == map[]
    {
      this.chMaxFd := chMaxFd;
      channels, names, clients, lastAct := map[], map[], {}, map[];
    }

    /** Every channel was in the table before or is a new object. */
    twostate predicate Grown()
      reads this`channels
    {
      forall k :: k in channels ==> channels[k] in old(channels.Values) || fresh(channels[k])
    }

    /** The table and the locks with one more channel. */
    lemma WithOneMore(before: map<ChId, Channel>, rooms: Rooms, held: set<ChId>, id: ChId, ch: Channel)
      requires id !in before && channels == before[id := ch] && !ch.held && rooms.Keys == before.Keys
      requires forall k :: k in before ==> before[k].View() == rooms[k] && (before[k].held <==> k in held)
      requires held <= before.Keys
      ensures Rooms() == rooms[id := ch.View()] && Held() == held
    {
      assert forall k :: k in before ==> channels[k] == before[k];
      SameMap(Rooms(), rooms[id := ch.View()]);
    }

    method CreateChannel(id: ChId)
      requires Valid() && id !in channels
      modifies this`channels
      ensures Valid() && id in channels && fresh(channels[id]) && channels == old(channels)[id := channels[id]]
      ensures Rooms() == old(Rooms())[id := NewRoom(chMaxFd, id)] && Held() == old(Held())
    {
      ghost var before, rooms, held := channels, Rooms(), Held();
      var ch := new Channel(id, chMaxFd);
      assert forall k :: k in before ==> before[k] != ch;
      channels := channels[id := ch];
      WithOneMore(before, rooms, held, id, ch);
    }

    method GetChannel(id: ChId)
      requires Valid()
      modifies this`channels
      ensures Valid() && id in channels && channels == old(channels)[id := channels[id]]
      ensures id in old(channels) ==> channels == old(channels)
      ensures id !in old(channels) ==> fresh(channels[id])
      ensures Rooms() == WithRoom(old(Rooms()), chMaxFd, id) && Held() == old(Held())
    {
      if id !in channels { CreateChannel(id); }
    }

    /** `wait_stop_pooling` on one channel while no other lock is held. */
    method LockChannel(id: ChId)
      requires Valid() && id in channels && Held() == {}
      modifies channels[id]
      ensures Valid() && Rooms() == old(Rooms()) && Held() == {id}
    {
      assert id !in Held();
      channels[id].WaitStopPooling();
    }

    method UnlockChannel(id: ChId)
      requires Valid() && id in channels && Held() == {id}
      modifies channels[id]
      ensures Valid() && Rooms() == old(Rooms()) && Held() == {}
    {
      assert id in Held();
      assert forall k :: k in channels && k != id ==> k !in Held();
      channels[id].StartPooling();
    }

    /** `wait_stop_pooling`, then `ping_pool`; a full channel is unlocked again. */
    method Probe(id: ChId) returns (free: bool)
      requires Valid() && id in channels && Held() == {}
      modifies channels[id]
      ensures Valid() && Rooms() == old(Rooms())
      ensures free <==> HasSpace(Rooms()[id])
      ensures Held() == if free then {id} else {}
    {
      LockChannel(id);
      free := channels[id].PingPool();
      if !free { UnlockChannel(id); }
    }

    /** One round of the search. */
    method ProbeNext(todo: set<ChId>) returns (free: bool, id: ChId)
      requires Valid() && Held() == {} && todo <= channels.Keys && todo != {}
      modifies channels.Values
      ensures Valid() && Rooms() == old(Rooms()) && id in todo
      ensures free <==> HasSpace(Rooms()[id])
      ensures Held() == if free then {id} else {}
    {
      id := NextOf(todo);
      free := Probe(id);
    }

    /** The search through the other channels. */
    method ProbeOthers(preferred: ChId) returns (found: bool, id: ChId)
      requires Valid() && Held() == {}
      modifies channels.Values
      ensures Valid() && Rooms() == old(Rooms())
      ensures found ==> id in channels && id != preferred && HasSpace(Rooms()[id]) && Held() == {id}
      ensures !found ==> Held() == {} && FullExcept(Rooms(), {preferred})
    {
      var todo := channels.Keys - {preferred};
      while todo != {}
        invariant Valid() && Rooms() == old(Rooms()) && Held() == {} && todo <= channels.Keys
        invariant preferred !in todo && FullExcept(old(Rooms()), todo + {preferred})
        decreases |todo|
      {
        found, id := ProbeNext(todo);
        if found { return; }
        OneMoreFull(old(Rooms()), todo, preferred, id);
        todo := todo - {id};
      }
      assert {} + {preferred} == {preferred};
      found, id := false, preferred;
    }

    method LockFresh() returns (id: ChId)
      requires Valid() && Held() == {}
      modifies this`channels
      ensures Valid() && id in channels && Held() == {id} && channels == old(channels)[id := channels[id]]
      ensures fresh(channels[id]) && id !in old(channels) && id >= 1 && forall k :: 1 <= k < id ==> k in old(channels)
      ensures Rooms() == WithRoom(old(Rooms()), chMaxFd, id)
    {
      id := P.FreshFrom(channels.Keys, 1);
      GetChannel(id);
      LockChannel(id);
    }

    /** Some other channel with a slot, or else a fresh one. */
    method PlaceElsewhere(preferred: ChId) returns (id: ChId)
      requires Valid() && Held() == {} && preferred in channels && !HasSpace(Rooms()[preferred])
      modifies this`channels, channels.Values
      ensures Valid() && id in channels && Held() == {id} && channels == old(channels)[id := channels[id]]
      ensures id !in old(channels) ==> fresh(channels[id])
      ensures id in old(channels) ==> id != preferred && channels == old(channels) && HasSpace(old(Rooms())[id])
      ensures id !in old(channels) ==> id >= 1 && (forall k :: 1 <= k < id ==> k in old(channels))
                                       && forall k :: k in old(channels) ==> !HasSpace(old(Rooms())[k])
      ensures Rooms() == WithRoom(old(Rooms()), chMaxFd, id)
    {
      var found: bool;
      found, id := ProbeOthers(preferred);
      if found { return; }
      ghost var full := Rooms();
      assert forall k :: k in full ==> !HasSpace(full[k]);
      id := LockFresh();
    }

    /** `get_channel` and the first probe. */
    method ProbePreferred(preferred: ChId) returns (free: bool)
      requires Valid() && Held() == {}
      modifies this`channels, channels.Values
      ensures Valid() && preferred in channels && channels == old(channels)[preferred := channels[preferred]]
      ensures preferred !in old(channels) ==> fresh(channels[preferred])
      ensures preferred in old(channels) ==> channels == old(channels)
      ensures Rooms() == WithRoom(old(Rooms()), chMaxFd, preferred)
      ensures free <==> HasSpace(Rooms()[preferred])
      ensures Held() == if free then {preferred} else {}
    {
      GetChannel(preferred);
      ghost var known := Rooms();
      assert known.Keys == channels.Keys;
      free := Probe(preferred);
    }

    /** Returns holding exactly the lock of the channel it picked. */
    method FindOrCreateChannel(preferred: ChId) returns (id: ChId)
      requires Valid() && Held() == {}
      modifies this`channels, channels.Values
      ensures Valid() && preferred in channels && id in channels && Held() == {id}
      ensures channels == old(channels)[preferred := channels[preferred]][id := channels[id]]
      ensures if id in old(channels) then channels[id] == old(channels)[id] else fresh(channels[id])
      ensures if preferred in old(channels) then channels[preferred] == old(channels)[preferred]
              else fresh(channels[preferred])
      ensures Placed(old(Rooms()), chMaxFd, preferred, id)
      ensures Rooms() == WithRoom(WithRoom(old(Rooms()), chMaxFd, preferred), chMaxFd, id)
    {
      var free := ProbePreferred(preferred);
      if free { return preferred; }
      id := PlaceElsewhere(preferred);
    }

    // -------------------------------------------------------------- joining and switching

    /** `join_and_logging` on a channel. */
    method AdmitTo(id: ChId, fd: Fd, timestamp: nat, text: string)
      requires Valid() && id in channels && Held() == {id}
      modifies channels[id]
      ensures Valid() && Held() == {id}
      ensures Rooms() == old(Rooms())[id := Admit(old(Rooms())[id], names, fd, timestamp, text)]
      ensures fd in names && fd !in old(channels[id].joinPool) ==>
                channels[id].joinPool
                == old(channels[id].joinPool)[fd := Msg(fd, System, text, timestamp, names[fd])]
      ensures fd !in names || fd in old(channels[id].joinPool) ==>
                channels[id].joinPool == old(channels[id].joinPool)
    {
      assert id in Held();
      if fd !in names {
        assert Rooms()[id := Rooms()[id]] == Rooms();
        return;
      }
      channels[id].JoinChannel(fd, SystemMsg(fd, text, timestamp, names[fd]));
    }

    /** `leave_and_logging` on a channel, whose lock it does not take. */
    method DismissFrom(id: ChId, fd: Fd, timestamp: nat)
      requires Valid() && id in channels
      modifies channels[id]
      ensures Valid() && Held() == old(Held())
      ensures Rooms() == old(Rooms())[id := Dismiss(old(Rooms())[id], names, fd, timestamp)]
      ensures fd in names && fd !in old(channels[id].leavePool) ==>
                channels[id].leavePool
                == old(channels[id].leavePool)[fd := Msg(fd, System, "leave", timestamp, names[fd])]
      ensures fd !in names || fd in old(channels[id].leavePool) ==>
                channels[id].leavePool == old(channels[id].leavePool)
      ensures channels[id].marked == old(channels[id].marked) + (if fd in names then {} else {fd})
    {
      var ch := channels[id];
      if fd !in names {
        ch.marked := ch.marked + {fd};
      } else {
        ch.LeaveChannel(fd, SystemMsg(fd, "leave", timestamp, names[fd]));
      }
    }

    method FindForUser(preferred: ChId) returns (id: ChId)
      requires Valid() && Held() == {}
      modifies this`channels, channels.Values
      ensures Valid() && id in channels && Held() == {id} && Placed(old(Rooms()), chMaxFd, preferred, id)
      ensures Rooms() == WithRoom(WithRoom(old(Rooms()), chMaxFd, preferred), chMaxFd, id) && Grown()
    {
      id := FindOrCreateChannel(preferred);
      forall k | k in channels ensures channels[k] in old(channels.Values) || fresh(channels[k]) {
        if k != id && k != preferred { assert channels[k] == old(channels)[k]; }
      }
    }

    /** Picks a channel for a named user and posts the join; the channel stays locked. */
    method PlaceUser(fd: Fd, preferred: ChId, timestamp: nat) returns (id: ChId)
      requires Valid() && Held() == {}
      modifies this`channels, channels.Values
      ensures Valid() && id in channels && Held() == {id}
      ensures Placed(old(Rooms()), chMaxFd, preferred, id)
      ensures Grown()
      ensures Rooms() == WithUser(old(Rooms()), chMaxFd, names, fd, preferred, id, timestamp)
    {
      id := FindForUser(preferred);
      AdmitTo(id, fd, timestamp, "join");
    }

    /** The end of a lobby join: the user leaves the lobby before the channel is unlocked. A user that is
        not in the lobby makes `delete_client` throw with the lock held. */
    method FinishJoin(fd: Fd, id: ChId) returns (threw: bool)
      requires Valid() && id in channels && Held() == {id}
      modifies this`clients, this`lastAct, channels[id]
      ensures Valid() && Rooms() == old(Rooms()) && (threw <==> fd !in old(clients))
      ensures Held() == if threw then {id} else {}
      ensures clients == old(clients) - {fd} && lastAct == if threw then old(lastAct) else old(lastAct) - {fd}
    {
      if fd !in clients { return true; }
      DropFromLobby(fd);
      UnlockChannel(id);
      threw := false;
    }

    method DropFromLobby(fd: Fd)
      requires Valid()
      modifies this`clients, this`lastAct
      ensures Valid() && Rooms() == old(Rooms()) && Held() == old(Held())
      ensures clients == old(clients) - {fd} && lastAct == old(lastAct) - {fd}
    {
      clients := clients - {fd};
      lastAct := lastAct - {fd};
    }

    /** `UserManager::set_user_name`. */
    method SetUserName(fd: Fd, name: string)
      requires Valid()
      modifies this`names
      ensures Valid() && Rooms() == old(Rooms()) && Held() == old(Held()) && names == old(names)[fd := name]
    {
      names := names[fd := name];
    }

    method PlaceAndFinish(fd: Fd, preferred: ChId, timestamp: nat) returns (id: ChId, threw: bool)
      requires Valid() && Held() == {}
      modifies this`channels, this`clients, this`lastAct, channels.Values
      ensures Valid() && (threw <==> fd !in old(clients)) && Held() == if threw then {id} else {}
      ensures clients == old(clients) - {fd}
      ensures lastAct == if threw then old(lastAct) else old(lastAct) - {fd}
      ensures Placed(old(Rooms()), chMaxFd, preferred, id)
      ensures Rooms() == WithUser(old(Rooms()), chMaxFd, names, fd, preferred, id, timestamp)
      ensures Grown()
    {
      id := PlaceUser(fd, preferred, timestamp);
      threw := FinishJoin(fd, id);
    }

    /** The join case of `on_req`. A second join of the same user in one read posts the user again, to
        whatever channel has a slot, and leaves that channel locked. */
    method JoinRequest(fd: Fd, preferred: ChId, timestamp: nat, name: string) returns (id: ChId, threw: bool)
      requires Valid() && Held() == {}
      modifies this, channels.Values
      ensures Valid() && (threw <==> fd !in old(clients)) && Held() == if threw then {id} else {}
      ensures names == old(names)[fd := name] && clients == old(clients) - {fd}
      ensures lastAct == if threw then old(lastAct) else old(lastAct) - {fd}
      ensures Placed(old(Rooms()), chMaxFd, preferred, id)
      ensures Rooms() == WithUser(old(Rooms()), chMaxFd, names, fd, preferred, id, timestamp)
      ensures Grown()
    {
      SetUserName(fd, name);
      id, threw := PlaceAndFinish(fd, preferred, timestamp);
    }

    /** Two join frames of a lobby user in one read: the second posts the user once more and throws, and
        the channel it picked stays locked. */
    method TwoJoins(fd: Fd, preferred: ChId, again: ChId, timestamp: nat, name: string)
      returns (stuck: ChId, threw: bool)
      requires Valid() && Held() == {} && fd in clients
      modifies this, channels.Values
      ensures Valid() && threw && Held() == {stuck} && fd !in clients
      ensures stuck in channels && fd in channels[stuck].joinPool
    {
      var id: ChId;
      id, threw := JoinRequest(fd, preferred, timestamp, name);
      stuck, threw := JoinRequest(fd, again, timestamp, name);
      assert fd in Rooms()[stuck].joinPool;
    }

    /** An admitted switch, up to the unlock of the target. */
    method MoveUser(q: SwitchReport)
      requires Valid() && q.src in channels && q.dst in channels && Held() == {q.dst}
      modifies channels[q.src], channels[q.dst]
      ensures Valid() && Rooms() == Moved(old(Rooms()), names, q) && Held() == {}
    {
      AdmitTo(q.dst, q.fd, q.timestamp, "rejoin");
      DismissFrom(q.src, q.fd, q.timestamp);
      UnlockChannel(q.dst);
    }

    /** The part of a switch after both channels are known. */
    method SwitchKnown(q: SwitchReport, sent: bool) returns (threw: bool)
      requires Valid() && Held() == {} && q.src in channels && q.dst in channels
      modifies channels[q.src], channels[q.dst]
      ensures Valid() && (threw <==> !HasSpace(old(Rooms())[q.dst]) && !sent)
      ensures Rooms() == if HasSpace(old(Rooms())[q.dst]) then Moved(old(Rooms()), names, q) else old(Rooms())
      ensures Held() == if threw then {q.dst} else {}
    {
      LockChannel(q.dst);
      var free := channels[q.dst].PingPool();
      if !free {
        if !sent { return true; }
        UnlockChannel(q.dst);
        return false;
      }
      MoveUser(q);
      threw := false;
    }

    method GetBoth(src: ChId, dst: ChId)
      requires Valid()
      modifies this`channels
      ensures Valid() && src in channels && dst in channels && Held() == old(Held())
      ensures forall c :: c in channels.Values ==> c in old(channels.Values) || fresh(c)
      ensures Rooms() == WithRoom(WithRoom(old(Rooms()), chMaxFd, src), chMaxFd, dst)
    {
      GetChannel(src);
      GetChannel(dst);
    }

    /** One round of `consume_report`; true when `send_frame` throws. */
    method SwitchOne(q: SwitchReport, sent: bool) returns (threw: bool)
      requires Valid() && Held() == {}
      modifies this`channels, channels.Values
      ensures Valid() && forall c :: c in channels.Values ==> c in old(channels.Values) || fresh(c)
      ensures var known := Known(old(Rooms()), chMaxFd, q);
              && (threw <==> !HasSpace(known[q.dst]) && !sent)
              && Rooms() == (if threw then known else Switch(old(Rooms()), chMaxFd, names, q))
      ensures Held() == if threw then {q.dst} else {}
    {
      GetBoth(q.src, q.dst);
      threw := SwitchKnown(q, sent);
    }

    /** `consume_report` on a drained queue; an exception leaves the rest of the queue unread. */
    method ConsumeReport(qs: seq<SwitchReport>, sent: seq<bool>) returns (threw: bool)
      requires Valid() && Held() == {} && |sent| == |qs|
      modifies this`channels, channels.Values
      ensures Valid()
      ensures var all := ConsumeAll(old(Rooms()), chMaxFd, names, qs, sent);
              Rooms() == all.rooms && Held() == all.locked && (threw <==> all.locked != {})
    {
      ghost var all := ConsumeAll(Rooms(), chMaxFd, names, qs, sent);
      var queue, answers := qs, sent;
      while queue != []
        invariant Valid() && Held() == {} && |answers| == |queue|
        invariant forall c :: c in channels.Values ==> c in old(channels.Values) || fresh(c)
        invariant ConsumeAll(Rooms(), chMaxFd, names, queue, answers) == all
        decreases |queue|
      {
        threw := SwitchOne(queue[0], answers[0]);
        if threw { return; }
        queue, answers := queue[1..], answers[1..];
      }
      threw := false;
    }

    /** One round of `check_channels`: destroy the channel, or go on. */
    method InspectChannel(id: ChId, now: nat)
      requires Valid() && id in channels
      modifies this`channels
      ensures Valid() && Held() <= old(Held())
      ensures Rooms() == Inspected(old(Rooms()), id, now)
    {
      var ch := channels[id];
      if ch.stop {
        if ch.emptySince > 0 && P.ClockSub(now, ch.emptySince) > P.IDLE_LIMIT {
          channels := channels - {id};
        }
      }
    }

    method InspectNext(todo: set<ChId>, now: nat, ghost before: Rooms) returns (rest: set<ChId>)
      requires Valid() && todo != {} && ReapedSoFar(before, Rooms(), todo, now)
      modifies this`channels
      ensures Valid() && Held() <= old(Held()) && rest < todo && ReapedSoFar(before, Rooms(), rest, now)
    {
      var id := NextOf(todo);
      ReapStep(before, Rooms(), todo, id, now);
      InspectChannel(id, now);
      rest := todo - {id};
    }

    /** `check_channels`. */
    method CheckChannels(now: nat)
      requires Valid()
      modifies this`channels
      ensures Valid() && Held() <= old(Held()) && Rooms() == Reaped(old(Rooms()), now)
    {
      ghost var before := Rooms();
      var todo := channels.Keys;
      while todo != {}
        invariant Valid() && Held() <= old(Held()) && ReapedSoFar(before, Rooms(), todo, now)
        decreases todo
      {
        todo := InspectNext(todo, now, before);
      }
      ReapEnd(before, Rooms(), now);
    }
  }

  /** For instance: a server with one user in its lobby. */
  method SecondJoinLocks() returns (srv: Server, stuck: ChId)
    ensures fresh(srv) && srv.Valid() && srv.Held() == {stuck}
  {
    srv := new Server(1);
    srv.clients := {7};
    var threw: bool;
    stuck, threw := srv.TwoJoins(7, 1, 1, 1, "eve");
  }
}
