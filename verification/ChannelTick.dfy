/** The tick of a channel: the tasks three constructors register, the order they end up in, and what
    that order guarantees about messages and deletions. */
module ChannelTick {
  import opened MessageWindows
  import opened ChannelRoom
  import opened WindowJson
  import C = Communication
  import TR = TaskRunner

  const TS_PRE: nat := 0
  const TS_POLL: nat := 1
  const TS_LOGIC: nat := 2
  const TS_COUNT: nat := 3

  datatype Job =
    | ClearDeletion | Poll | HandleEvents | ResolveDeletionJob   // ServerBase
    | ClearMessages | BroadcastJob                               // ChatServer
    | ResolvePoolJob                                             // Channel
    | ConsumeReport | CheckLobbyAndChannels                      // ChannelServer

  function Keep(job: Job): TR.Task<Job> {
    TR.Task(false, job)
  }

  // ---------------------------------------------------------------- the constructors

  const BASE_SESSIONS: TR.Sessions<Job> :=
    [[Keep(ClearDeletion)], [Keep(Poll), Keep(HandleEvents)], [Keep(ResolveDeletionJob)]]

  const CHAT_SESSIONS: TR.Sessions<Job> :=
    [[Keep(ClearDeletion), Keep(ClearMessages)],
     [Keep(Poll), Keep(HandleEvents)],
     [Keep(BroadcastJob), Keep(ResolveDeletionJob)]]

  const CHANNEL_SESSIONS: TR.Sessions<Job> :=
    [[Keep(ClearDeletion), Keep(ClearMessages)],
     [Keep(Poll), Keep(HandleEvents)],
     [Keep(ResolvePoolJob), Keep(BroadcastJob), Keep(ResolveDeletionJob)]]

  const LOBBY_SESSIONS: TR.Sessions<Job> :=
    [[Keep(ClearDeletion), Keep(ConsumeReport)],
     [Keep(Poll), Keep(HandleEvents)],
     [Keep(CheckLobbyAndChannels), Keep(ResolveDeletionJob)]]

  method ServerBaseTasks() returns (r: TR.TaskRunner<Job>)
    ensures fresh(r) && r.tasks == BASE_SESSIONS
  {
    r := new TR.TaskRunner<Job>();
    r.NewSession(TS_COUNT);
    assert r.tasks == [[], [], []];
    var ok := r.PushBack(TS_PRE, false, ClearDeletion);
    assert r.tasks[0] == [Keep(ClearDeletion)];
    ok := r.PushBack(TS_POLL, false, Poll);
    assert r.tasks[1] == [Keep(Poll)];
    ok := r.PushBack(TS_POLL, false, HandleEvents);
    assert r.tasks[1] == [Keep(Poll), Keep(HandleEvents)];
    ok := r.PushBack(TS_LOGIC, false, ResolveDeletionJob);
    assert r.tasks[2] == [Keep(ResolveDeletionJob)];
    assert r.tasks == BASE_SESSIONS;
  }

  method ChatServerTasks(r: TR.TaskRunner<Job>)
    requires r.tasks == BASE_SESSIONS
    modifies r
    ensures r.tasks == CHAT_SESSIONS
  {
    var ok := r.PushBack(TS_PRE, false, ClearMessages);
    assert r.tasks[0] == [Keep(ClearDeletion), Keep(ClearMessages)];
    ok := r.PushFront(TS_LOGIC, false, BroadcastJob);
    assert r.tasks[2] == [Keep(BroadcastJob), Keep(ResolveDeletionJob)];
    assert r.tasks == CHAT_SESSIONS;
  }

  /** The base constructors run first, then `Channel` pushes `resolve_pool` to the front. */
  method ChannelTasks() returns (r: TR.TaskRunner<Job>)
    ensures fresh(r) && r.tasks == CHANNEL_SESSIONS
  {
    r := ServerBaseTasks();
    ChatServerTasks(r);
    var ok := r.PushFront(TS_LOGIC, false, ResolvePoolJob);
    assert r.tasks[2] == CHANNEL_SESSIONS[2];
    assert r.tasks == CHANNEL_SESSIONS;
  }

  method ChannelServerTasks() returns (r: TR.TaskRunner<Job>)
    ensures fresh(r) && r.tasks == LOBBY_SESSIONS
  {
    r := ServerBaseTasks();
    var ok := r.PushBack(TS_PRE, false, ConsumeReport);
    assert r.tasks[0] == LOBBY_SESSIONS[0];
    ok := r.PushFront(TS_LOGIC, false, CheckLobbyAndChannels);
    assert r.tasks[2] == LOBBY_SESSIONS[2];
    assert r.tasks == LOBBY_SESSIONS;
  }

  // ---------------------------------------------------------------- what the jobs do to a channel

  /** An epoll event of a channel: a hang-up, a read that throws, or a read with chat messages or with a
      switch request; a read that mixes them is several entries in a row. */
  datatype Event = HangUp(fd: Fd) | BadRead(fd: Fd) | Chat(fd: Fd, msgs: seq<Msg>) | Asks(fd: Fd, dst: nat)

  /** Everything the outside decides about one tick. */
  datatype Input = Input(pollFails: bool, events: seq<Event>, links: Links, order: Order, now: nat,
                         names: map<Fd, string>)

  function PushAll(r: Room, msgs: seq<Msg>): Room
    decreases |msgs|
  {
    if msgs == [] then r else PushAll(Push(r, msgs[0]), msgs[1..])
  }

  function Handle(r: Room, e: Event): Room {
    match e
    case HangUp(fd) => r.(marked := r.marked + {fd})
    case BadRead(fd) => r.(marked := r.marked + {fd}, rbuf := r.rbuf + {fd})
    case Chat(fd, msgs) => PushAll(r.(rbuf := r.rbuf + {fd}), msgs)
    case Asks(fd, _) => r.(rbuf := r.rbuf + {fd})
  }

  datatype Request = Request(fd: Fd, dst: nat)

  /** The switch requests the channel reports to the lobby: one to the channel itself is dropped. */
  function Requests(id: nat, events: seq<Event>): seq<Request> {
    if events == [] then []
    else (if events[0].Asks? && events[0].dst != id then [Request(events[0].fd, events[0].dst)] else [])
         + Requests(id, events[1..])
  }

  /** These are exactly the requests for another channel, one for one and in order: `ks` are their events. */
  lemma {:induction false} RequestsExactly(id: nat, events: seq<Event>) returns (ks: seq<nat>)
    ensures forall k: nat :: k in ks <==> k < |events| && events[k].Asks? && events[k].dst != id
    ensures forall a, b :: 0 <= a < b < |ks| ==> ks[a] < ks[b]
    ensures |Requests(id, events)| == |ks|
    ensures forall a :: 0 <= a < |ks| ==> ks[a] < |events| && events[ks[a]].Asks?
                                          && Requests(id, events)[a] == Request(events[ks[a]].fd, events[ks[a]].dst)
  {
    if events == [] {
      ks := [];
    } else {
      var n := |events| - 1;
      ks := RequestsExactly(id, events[..n]);
      RequestsLast(id, events);
      if events[n].Asks? && events[n].dst != id { ks := ks + [n]; }
    }
  }

  lemma {:induction false} RequestsLast(id: nat, events: seq<Event>)
    requires events != []
    ensures var n := |events| - 1;
            Requests(id, events)
            == Requests(id, events[..n])
               + (if events[n].Asks? && events[n].dst != id then [Request(events[n].fd, events[n].dst)] else [])
  {
    if |events| > 1 {
      var n := |events| - 1;
      RequestsLast(id, events[1..]);
      assert events[1..][..n - 1] == events[..n][1..];
    } else {
      assert events[..0] == [] && events[1..] == [];
    }
  }

  function HandleAll(r: Room, events: seq<Event>): Room
    decreases |events|
  {
    if events == [] then r else HandleAll(Handle(r, events[0]), events[1..])
  }

  function Do(i: Input, job: Job, r: Room): TR.Effect<Room> {
    match job
    case ClearDeletion => TR.Effect(r.(marked := {}), false)
    case ClearMessages => TR.Effect(r.(cur := []), false)
    case Poll => TR.Effect(r, i.pollFails)
    case HandleEvents => TR.Effect(HandleAll(r, i.events), false)
    case ResolvePoolJob => TR.Effect(ResolvePool(r, i.order, i.now), false)
    case BroadcastJob => TR.Effect(Broadcast(r, i.links), false)
    case ResolveDeletionJob => TR.Effect(ResolveDeletion(r, i.order, i.now, i.names), false)
    case _ => TR.Effect(r, false)
  }

  function Tick(r: Room, i: Input): TR.Ran<Job, Room> {
    TR.RunAll(CHANNEL_SESSIONS, r, (job, room) => Do(i, job, room))
  }

  function Cleared(r: Room): Room { r.(marked := {}, cur := []) }

  /** The state just before `resolve_deletion` in a tick whose polling works. */
  function BeforeDeletion(r: Room, i: Input): Room {
    Broadcast(ResolvePool(HandleAll(Cleared(r), i.events), i.order, i.now), i.links)
  }

  /** The registration order, as one composition. */
  lemma TickIsComposition(r: Room, i: Input)
    ensures var t := Tick(r, i);
            t.threw == i.pollFails && t.sessions == CHANNEL_SESSIONS
            && t.state == if i.pollFails then Cleared(r)
                          else ResolveDeletion(BeforeDeletion(r, i), i.order, i.now, i.names)
  {
    var exec := (job, room) => Do(i, job, room);
    var s0, s1, s2 := CHANNEL_SESSIONS[0], CHANNEL_SESSIONS[1], CHANNEL_SESSIONS[2];
    assert CHANNEL_SESSIONS[1..] == [s1, s2] && [s1, s2][1..] == [s2] && [s2][1..] == [];
    PreSession(r, i);
    PollSession(Cleared(r), i);
    if !i.pollFails { LogicSession(HandleAll(Cleared(r), i.events), i); }
  }

  lemma PreSession(r: Room, i: Input)
    ensures TR.RunSession(CHANNEL_SESSIONS[0], r, (job, room) => Do(i, job, room))
            == TR.SessionRan(CHANNEL_SESSIONS[0], Cleared(r), false, CHANNEL_SESSIONS[0])
  {
    var s := CHANNEL_SESSIONS[0];
    assert s[1..] == [Keep(ClearMessages)] && s[1..][1..] == [];
  }

  lemma PollSession(r: Room, i: Input)
    ensures var x := TR.RunSession(CHANNEL_SESSIONS[1], r, (job, room) => Do(i, job, room));
            x.session == CHANNEL_SESSIONS[1] && x.threw == i.pollFails
            && x.state == if i.pollFails then r else HandleAll(r, i.events)
  {
    var s := CHANNEL_SESSIONS[1];
    assert s[1..] == [Keep(HandleEvents)] && s[1..][1..] == [];
  }

  lemma SessionStep(i: Input, job: Job, rest: seq<TR.Task<Job>>, r: Room)
    requires !Do(i, job, r).threw
    ensures var exec := (job, room) => Do(i, job, room);
            var x, y := TR.RunSession(rest, Do(i, job, r).state, exec), TR.RunSession([Keep(job)] + rest, r, exec);
            y.session == [Keep(job)] + x.session && y.state == x.state && y.threw == x.threw
  {
    assert ([Keep(job)] + rest)[1..] == rest;
  }

  lemma {:induction false} LogicSession(r: Room, i: Input)
    ensures var x := TR.RunSession(CHANNEL_SESSIONS[2], r, (job, room) => Do(i, job, room));
            x.session == CHANNEL_SESSIONS[2] && !x.threw
            && x.state == ResolveDeletion(Broadcast(ResolvePool(r, i.order, i.now), i.links), i.order, i.now, i.names)
  {
    var p := ResolvePool(r, i.order, i.now);
    var b := Broadcast(p, i.links);
    var last, two := [Keep(ResolveDeletionJob)], [Keep(BroadcastJob), Keep(ResolveDeletionJob)];
    assert CHANNEL_SESSIONS[2] == [Keep(ResolvePoolJob)] + two && two == [Keep(BroadcastJob)] + last;
    assert last == [Keep(ResolveDeletionJob)] + [];
    SessionStep(i, ResolvePoolJob, two, r);
    SessionStep(i, BroadcastJob, last, p);
    SessionStep(i, ResolveDeletionJob, [], b);
  }

  // ---------------------------------------------------------------- the tick of a channel object

  method PushMessages(ch: Channel, msgs: seq<Msg>)
    modifies ch
    ensures ch.View() == PushAll(old(ch.View()), msgs)
    ensures ch.mq == old(ch.mq) + msgs && ch.marked == old(ch.marked) && ch.rbuf == old(ch.rbuf)
    ensures ch.windows == old(ch.windows)
  {
    var rest := msgs;
    while rest != []
      invariant ch.mq + rest == old(ch.mq) + msgs && ch.marked == old(ch.marked) && ch.rbuf == old(ch.rbuf)
      invariant ch.windows == old(ch.windows)
      invariant PushAll(ch.View(), rest) == PushAll(old(ch.View()), msgs)
      decreases |rest|
    {
      ch.PushMessage(rest[0]);
      rest := rest[1..];
    }
  }

  /** A decoded chat request: the text and the client's own timestamp. */
  datatype Saying = Saying(text: string, timestamp: nat)

  /** The chat case of `on_req` for the requests of one read: messages of a user under its name, and nothing
      from a descriptor without one. */
  method ReadSayings(fd: Fd, says: seq<Saying>, names: map<Fd, string>) returns (msgs: seq<Msg>)
    ensures fd !in names ==> msgs == []
    ensures fd in names ==> |msgs| == |says| && forall k :: 0 <= k < |says| ==>
              msgs[k] == Msg(fd, User, says[k].text, says[k].timestamp, names[fd])
  {
    msgs := [];
    for k := 0 to |says|
      invariant fd !in names ==> msgs == []
      invariant fd in names ==> |msgs| == k && forall j :: 0 <= j < k ==>
                  msgs[j] == Msg(fd, User, says[j].text, says[j].timestamp, names[fd])
    {
      if fd in names {
        msgs := msgs + [Msg(fd, User, says[k].text, says[k].timestamp, names[fd])];
      }
    }
  }

  method HandleEvent(ch: Channel, e: Event) returns (reports: seq<Request>)
    modifies ch
    ensures ch.View() == Handle(old(ch.View()), e) && reports == Requests(ch.id, [e])
    ensures reports == if e.Asks? && e.dst != ch.id then [Request(e.fd, e.dst)] else []
    ensures ch.marked == old(ch.marked) + (if e.HangUp? || e.BadRead? then {e.fd} else {})
    ensures ch.mq == old(ch.mq) + (if e.Chat? then e.msgs else [])
    ensures ch.rbuf == old(ch.rbuf) + (if e.HangUp? then {} else {e.fd})
    ensures ch.windows == old(ch.windows)
  {
    reports := [];
    assert [e][1..] == [];
    match e {
      case HangUp(fd) => ch.marked := ch.marked + {fd};
      case BadRead(fd) =>
        ch.marked := ch.marked + {fd};
        ch.rbuf := ch.rbuf + {fd};
      case Chat(fd, msgs) =>
        ch.rbuf := ch.rbuf + {fd};
        PushMessages(ch, msgs);
      case Asks(fd, dst) =>
        ch.rbuf := ch.rbuf + {fd};
        if dst != ch.id { reports := [Request(fd, dst)]; }
    }
  }

  method HandleEachEvent(ch: Channel, events: seq<Event>) returns (reports: seq<Request>)
    modifies ch
    ensures ch.View() == HandleAll(old(ch.View()), events) && reports == Requests(ch.id, events)
    ensures ch.windows == old(ch.windows)
  {
    ghost var handled := HandleAll(ch.View(), events);
    var rest := events;
    reports := [];
    while rest != []
      invariant ch.windows == old(ch.windows)
      invariant HandleAll(ch.View(), rest) == handled && reports + Requests(ch.id, rest) == Requests(ch.id, events)
      decreases |rest|
    {
      RequestsStep(ch.id, rest);
      var more := HandleEvent(ch, rest[0]);
      reports := reports + more;
      rest := rest[1..];
    }
  }

  lemma RequestsStep(id: nat, events: seq<Event>)
    requires events != []
    ensures Requests(id, events) == Requests(id, [events[0]]) + Requests(id, events[1..])
  {
    assert [events[0]][1..] == [];
  }

  /** Nothing but a part of the current window went to any client, and whoever is still a client has got all
      of it. */
  ghost predicate Heard(ch: Channel, wires: Wires)
    reads ch
  {
    var sent := C.OnWire(Bytes(WindowText(ch.cur, ch.id)));
    && ch.clients <= wires.Keys
    && forall fd :: fd in wires ==> wires[fd] <= sent && (fd in ch.clients ==> wires[fd] == sent)
  }

  /** The tasks of the last session. */
  method RunLogic(ch: Channel, i: Input) returns (wires: Wires)
    requires IsOrder(i.order)
    modifies ch
    ensures ch.windows == old(ch.windows) + [ch.cur] && Heard(ch, wires)
    ensures ch.View() == ResolveDeletion(Broadcast(ResolvePool(old(ch.View()), i.order, i.now), i.links), i.order, i.now, i.names)
  {
    ch.ResolvePoolNow(i.order, i.now);
    wires := ch.BroadcastWindow(i.order, i.links);
    ch.ResolveDeletionNow(i.order, i.now, i.names);
  }

  /** The tasks of the first session. */
  method ClearRoom(ch: Channel)
    modifies ch
    ensures ch.View() == Cleared(old(ch.View()))
  {
    ch.marked := {};
    ch.cur := [];
  }

  /** The tasks on the object, in the order they were registered; true when polling throws. */
  method RunTick(ch: Channel, i: Input) returns (threw: bool, reports: seq<Request>, wires: Wires)
    requires IsOrder(i.order)
    modifies ch
    ensures ch.View() == Tick(old(ch.View()), i).state && threw == i.pollFails
    ensures reports == if i.pollFails then [] else Requests(ch.id, i.events)
    ensures if i.pollFails then wires == map[] else ch.windows == old(ch.windows) + [ch.cur] && Heard(ch, wires)
  {
    TickIsComposition(ch.View(), i);
    ClearRoom(ch);
    if i.pollFails { return true, [], map[]; }
    reports := HandleEachEvent(ch, i.events);
    wires := RunLogic(ch, i);
    threw := false;
  }
}
