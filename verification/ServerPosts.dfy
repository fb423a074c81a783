/** What the lobby posts to the channels: who is announced, as what and under which name. */
module ServerPosts {
  import opened MessageWindows
  import opened ChannelRoom
  import opened ChannelTick
  import opened ChannelRuns
  import opened ChannelServer
  import opened ChannelDeletion
  import opened Collections

  // ---------------------------------------------------------------- field by field

  /** Nothing is pending for `fd` in channel `id`. */
  predicate NotJoining(rooms: Rooms, id: ChId, fd: Fd) {
    id in rooms ==> fd !in rooms[id].joinPool
  }

  predicate NotLeaving(rooms: Rooms, id: ChId, fd: Fd) {
    id in rooms ==> fd !in rooms[id].leavePool
  }

  /** A lobby join announces the user to the channel it was placed in as a "join" under its name; a join
      that is already pending there stays as it was posted. */
  lemma LobbyJoinIsPosted(rooms: Rooms, cap: nat, names: map<Fd, string>, fd: Fd, preferred: ChId, id: ChId,
                          timestamp: nat)
    requires fd in names
    ensures var after := WithUser(rooms, cap, names, fd, preferred, id, timestamp);
            && id in after && fd in after[id].joinPool
            && (NotJoining(rooms, id, fd) ==>
                  after[id].joinPool[fd] == Msg(fd, System, "join", timestamp, names[fd]))
            && (!NotJoining(rooms, id, fd) ==> after[id].joinPool == rooms[id].joinPool)
  {
  }

  /** An admitted switch announces a "rejoin" in the target and a "leave" in the source. */
  lemma SwitchIsPosted(rooms: Rooms, cap: nat, names: map<Fd, string>, q: SwitchReport)
    requires q.fd in names && q.src != q.dst && HasSpace(Known(rooms, cap, q)[q.dst])
    ensures var after := Switch(rooms, cap, names, q);
            && q.src in after && q.dst in after
            && q.fd in after[q.dst].joinPool && q.fd in after[q.src].leavePool
            && (NotJoining(rooms, q.dst, q.fd) ==>
                  after[q.dst].joinPool[q.fd] == Msg(q.fd, System, "rejoin", q.timestamp, names[q.fd]))
            && (NotLeaving(rooms, q.src, q.fd) ==>
                  after[q.src].leavePool[q.fd] == Msg(q.fd, System, "leave", q.timestamp, names[q.fd]))
  {
  }

  // ---------------------------------------------------------------- every room, at any time

  /** Pending joins say "join" or "rejoin" and pending leaves "leave", each for its own descriptor. */
  ghost predicate Posted(r: Room) {
    && (forall fd :: fd in r.joinPool ==> IsJoin(r.joinPool[fd], fd))
    && (forall fd :: fd in r.leavePool ==> IsLeave(r.leavePool[fd], fd))
  }

  predicate IsJoin(m: Msg, fd: Fd) {
    m.kind.System? && (m.text == "join" || m.text == "rejoin") && m.from == fd
  }

  ghost predicate AllPosted(rooms: Rooms) {
    forall id :: id in rooms ==> Posted(rooms[id])
  }

  /** This is what the deletion theorems rely on. */
  lemma PostedIsWellFormed(r: Room)
    requires Posted(r)
    ensures WellFormedPools(r)
  {
    forall fd | fd in r.joinPool ensures r.joinPool[fd].text != "leave" {
      assert IsJoin(r.joinPool[fd], fd);
      assert |r.joinPool[fd].text| != 5;
    }
  }

  lemma NewIsPosted(rooms: Rooms, cap: nat, id: ChId)
    requires AllPosted(rooms)
    ensures AllPosted(WithRoom(rooms, cap, id))
  {
  }

  lemma AdmitKeepsPosted(r: Room, names: map<Fd, string>, fd: Fd, timestamp: nat, text: string)
    requires Posted(r) && (text == "join" || text == "rejoin")
    ensures Posted(Admit(r, names, fd, timestamp, text))
  {
  }

  lemma DismissKeepsPosted(r: Room, names: map<Fd, string>, fd: Fd, timestamp: nat)
    requires Posted(r)
    ensures Posted(Dismiss(r, names, fd, timestamp))
  {
  }

  /** `JoinRequest` leaves such rooms behind. */
  lemma JoinKeepsPosted(rooms: Rooms, cap: nat, names: map<Fd, string>, fd: Fd, preferred: ChId, id: ChId,
                        timestamp: nat)
    requires AllPosted(rooms)
    ensures AllPosted(WithUser(rooms, cap, names, fd, preferred, id, timestamp))
  {
    NewIsPosted(rooms, cap, preferred);
    NewIsPosted(WithRoom(rooms, cap, preferred), cap, id);
    var known := WithRoom(WithRoom(rooms, cap, preferred), cap, id);
    AdmitKeepsPosted(known[id], names, fd, timestamp, "join");
  }

  lemma SwitchKeepsPosted(rooms: Rooms, cap: nat, names: map<Fd, string>, q: SwitchReport)
    requires AllPosted(rooms)
    ensures AllPosted(Known(rooms, cap, q)) && AllPosted(Switch(rooms, cap, names, q))
  {
    NewIsPosted(rooms, cap, q.src);
    NewIsPosted(WithRoom(rooms, cap, q.src), cap, q.dst);
    var known := Known(rooms, cap, q);
    AdmitKeepsPosted(known[q.dst], names, q.fd, q.timestamp, "rejoin");
    var joined := known[q.dst := Admit(known[q.dst], names, q.fd, q.timestamp, "rejoin")];
    DismissKeepsPosted(joined[q.src], names, q.fd, q.timestamp);
  }

  /** So does `ConsumeReport`, wherever it stops. */
  lemma {:induction false} ConsumeKeepsPosted(rooms: Rooms, cap: nat, names: map<Fd, string>, qs: seq<SwitchReport>,
                                              sent: seq<bool>)
    requires AllPosted(rooms) && |sent| == |qs|
    ensures AllPosted(ConsumeAll(rooms, cap, names, qs, sent).rooms)
    decreases |qs|
  {
    if qs != [] {
      SwitchKeepsPosted(rooms, cap, names, qs[0]);
      ConsumeKeepsPosted(Switch(rooms, cap, names, qs[0]), cap, names, qs[1..], sent[1..]);
    }
  }

  /** The reaper and the channels' own ticks post nothing. */
  lemma ReapKeepsPosted(rooms: Rooms, now: nat)
    requires AllPosted(rooms)
    ensures AllPosted(Reaped(rooms, now))
  {
  }

  lemma TickKeepsPosted(r: Room, i: Input)
    requires Posted(r)
    ensures Posted(Tick(r, i).state)
  {
    TickIsComposition(r, i);
    if !i.pollFails { TickEmptiesPools(r, i); }
  }

  // ---------------------------------------------------------------- whole runs of the table

  /** What changes the table: joins, report queues and reaper passes of the lobby, and ticks of channels. */
  datatype TableEvent =
    | Joining(names: map<Fd, string>, fd: Fd, preferred: ChId, id: ChId, timestamp: nat)
    | Reporting(names: map<Fd, string>, qs: seq<SwitchReport>, sent: seq<bool>)
    | Reaping(now: nat)
    | Ticking(room: ChId, i: Input)

  function AfterTable(rooms: Rooms, cap: nat, e: TableEvent): Rooms {
    match e
    case Joining(names, fd, preferred, id, timestamp) => WithUser(rooms, cap, names, fd, preferred, id, timestamp)
    case Reporting(names, qs, sent) =>
      if |sent| == |qs| then ConsumeAll(rooms, cap, names, qs, sent).rooms else rooms
    case Reaping(now) => Reaped(rooms, now)
    case Ticking(room, i) => if room in rooms then rooms[room := Tick(rooms[room], i).state] else rooms
  }

  function Table(cap: nat, events: seq<TableEvent>): Rooms {
    if events == [] then map[] else AfterTable(Table(cap, events[..|events| - 1]), cap, events[|events| - 1])
  }

  /** Whatever happens, in any order: every room's pools hold what the deletion theorems assume of them. */
  lemma {:induction false} PoolsAreWellFormed(cap: nat, events: seq<TableEvent>)
    ensures AllPosted(Table(cap, events))
    ensures forall id :: id in Table(cap, events) ==> WellFormedPools(Table(cap, events)[id])
  {
    if events != [] {
      var before, e := Table(cap, events[..|events| - 1]), events[|events| - 1];
      PoolsAreWellFormed(cap, events[..|events| - 1]);
      match e
      case Joining(names, fd, preferred, id, timestamp) =>
        JoinKeepsPosted(before, cap, names, fd, preferred, id, timestamp);
      case Reporting(names, qs, sent) => if |sent| == |qs| { ConsumeKeepsPosted(before, cap, names, qs, sent); }
      case Reaping(now) => ReapKeepsPosted(before, now);
      case Ticking(room, i) => if room in before { TickKeepsPosted(before[room], i); }
    }
    var rooms := Table(cap, events);
    assert AllPosted(rooms);
    forall id | id in rooms ensures WellFormedPools(rooms[id]) { PostedIsWellFormed(rooms[id]); }
  }
}
