/** Placing a new user and reaping idle channels are runs of the protocol's lobby thread with the same
    outcome as the methods of the server. */
module LobbyRefinement {
  import opened ChannelRoom
  import opened ChannelServer
  import opened Collections
  import opened ServerRefinement
  import P = ChannelProtocol

  // ---------------------------------------------------------------- probing

  predicate NoLocks(s: P.State) {
    forall k :: k in s.chans ==> s.chans[k].lock.Free?
  }

  lemma ServesTwo(a: P.State, x: P.ServerStep, y: P.ServerStep)
    requires P.ServerEnabled(a, x) && P.ServerEnabled(P.ServerApply(a, x), y)
    ensures Serves(a, [x, y], P.ServerApply(P.ServerApply(a, x), y))
  {
    ServesOne(P.ServerApply(a, x), y);
    assert [x, y][1..] == [y];
  }

  /** A full channel is probed and left as it was. */
  lemma {:induction false} ProbeFull(s: P.State, known: Rooms, names: map<Fd, string>)
    requires Shows(s, known, names) && s.spc.Probe? && s.spc.at in known && s.chans[s.spc.at].lock.Free?
    requires !HasSpace(known[s.spc.at])
    ensures Serves(s, [P.ProbeLock, P.Ping], s.(spc := P.Search(s.spc.fd, s.spc.todo, s.spc.full + {s.spc.at})))
  {
    SlotIsSpace(s, known, names, s.spc.at);
    ServesTwo(s, P.ProbeLock, P.Ping);
    var end := P.ServerApply(P.ServerApply(s, P.ProbeLock), P.Ping);
    assert end.chans == s.chans;
  }

  /** A channel with a slot stays locked. */
  lemma ProbeHit(s: P.State, known: Rooms, names: map<Fd, string>)
    requires Shows(s, known, names) && s.spc.Probe? && s.spc.at in known && s.chans[s.spc.at].lock.Free?
    requires HasSpace(known[s.spc.at])
    ensures var at := s.spc.at;
            Serves(s, [P.ProbeLock, P.Ping], s.(chans := s.chans[at := s.chans[at].(lock := P.ByServer)],
                                                spc := P.AtJoin(s.spc.fd, at, P.FromLobby)))
  {
    SlotIsSpace(s, known, names, s.spc.at);
    ServesTwo(s, P.ProbeLock, P.Ping);
  }

  /** Candidates that are all full are passed over one after the other. */
  lemma {:induction false} SkipFull(s: P.State, known: Rooms, names: map<Fd, string>)
    returns (steps: seq<P.ServerStep>)
    requires Shows(s, known, names) && NoLocks(s) && s.spc.Search? && s.spc.todo <= known.Keys
    requires forall k :: k in s.spc.todo ==> !HasSpace(known[k])
    ensures Serves(s, steps, s.(spc := P.Search(s.spc.fd, {}, s.spc.full + s.spc.todo)))
    decreases s.spc.todo
  {
    var fd, todo, full := s.spc.fd, s.spc.todo, s.spc.full;
    if todo == {} {
      assert full + todo == full;
      steps := [];
    } else {
      var id := AnyOf(todo);
      var probing := s.(spc := P.Probe(fd, id, todo - {id}, full));
      ServesOne(s, P.NextCandidate(id));
      ProbeFull(probing, known, names);
      var next := s.(spc := P.Search(fd, todo - {id}, full + {id}));
      ServesAppend(s, [P.NextCandidate(id)], probing, [P.ProbeLock, P.Ping], next);
      var later := SkipFull(next, known, names);
      assert full + {id} + (todo - {id}) == full + todo;
      steps := [P.NextCandidate(id)] + [P.ProbeLock, P.Ping];
      ServesAppend(s, steps, next, later, s.(spc := P.Search(fd, {}, full + todo)));
      steps := steps + later;
    }
  }

  /** What the search has come to when a channel is picked: locked, and about to be joined. */
  predicate Picked(s: P.State, end: P.State, fd: Fd, id: ChId) {
    && end.spc == P.AtJoin(fd, id, P.FromLobby) && end.cap == s.cap && end.lobby == s.lobby
    && id in end.chans && end.chans[id].lock.ByServer?
    && (id in s.chans ==> end.chans[id].pc == s.chans[id].pc)
    && forall k :: k in end.chans && k != id ==> end.chans[k].lock.Free?
  }

  lemma LockShows(s: P.State, known: Rooms, names: map<Fd, string>, id: ChId)
    requires Shows(s, known, names) && id in known
    ensures Shows(s.(chans := s.chans[id := s.chans[id].(lock := P.ByServer)]), known, names)
  {
  }

  /** Another channel that has a slot may be the first candidate. */
  lemma {:induction false} PickOther(s: P.State, known: Rooms, names: map<Fd, string>, id: ChId)
    returns (steps: seq<P.ServerStep>, end: P.State)
    requires Shows(s, known, names) && NoLocks(s) && s.spc.Search? && id in s.spc.todo && id in known
    requires HasSpace(known[id])
    ensures Serves(s, steps, end) && Picked(s, end, s.spc.fd, id) && Shows(end, known, names)
  {
    var probing := s.(spc := P.Probe(s.spc.fd, id, s.spc.todo - {id}, s.spc.full));
    ServesOne(s, P.NextCandidate(id));
    ProbeHit(probing, known, names);
    LockShows(s, known, names, id);
    end := probing.(chans := probing.chans[id := probing.chans[id].(lock := P.ByServer)],
                    spc := P.AtJoin(s.spc.fd, id, P.FromLobby));
    ServesAppend(s, [P.NextCandidate(id)], probing, [P.ProbeLock, P.Ping], end);
    steps := [P.NextCandidate(id)] + [P.ProbeLock, P.Ping];
  }

  /** With every candidate used up, the least fresh channel is created and locked. */
  lemma PickFresh(s: P.State, known: Rooms, names: map<Fd, string>, id: ChId) returns (end: P.State)
    requires Shows(s, known, names) && NoLocks(s) && s.spc.Search? && s.spc.todo == {}
    requires id !in known && id >= 1 && forall k :: 1 <= k < id ==> k in known
    ensures Serves(s, [P.CreateFresh, P.LockFresh], end) && Picked(s, end, s.spc.fd, id)
    ensures Shows(end, WithRoom(known, s.cap, id), names) && end.chans[id].pc.LoopCheck?
  {
    assert P.FreshFrom(s.chans.Keys, 1) == id;
    ServesTwo(s, P.CreateFresh, P.LockFresh);
    NewIsShown(s, known, names, id);
    var created := s.(chans := P.WithChannel(s.chans, id));
    LockShows(created, WithRoom(known, s.cap, id), names, id);
    end := P.ServerApply(P.ServerApply(s, P.CreateFresh), P.LockFresh);
  }

  /** `find_or_create_channel` after the preferred channel turned out to be full. */
  lemma {:induction false} PickElsewhere(s: P.State, known: Rooms, names: map<Fd, string>, preferred: ChId, id: ChId)
    returns (steps: seq<P.ServerStep>, end: P.State)
    requires Shows(s, known, names) && NoLocks(s) && s.spc.Search? && s.spc.todo == known.Keys - {preferred}
    requires preferred in known && !HasSpace(known[preferred]) && Placed(known, s.cap, preferred, id)
    ensures Serves(s, steps, end) && Picked(s, end, s.spc.fd, id)
    ensures Shows(end, WithRoom(known, s.cap, id), names) && (id !in known ==> end.chans[id].pc.LoopCheck?)
  {
    if id in known {
      steps, end := PickOther(s, known, names, id);
    } else {
      steps := SkipFull(s, known, names);
      var searched := s.(spc := P.Search(s.spc.fd, {}, s.spc.full + s.spc.todo));
      end := PickFresh(searched, known, names, id);
      ServesAppend(s, steps, searched, [P.CreateFresh, P.LockFresh], end);
      steps := steps + [P.CreateFresh, P.LockFresh];
    }
  }

  /** `find_or_create_channel`, from the first probe on: any channel the placement rule allows is reached. */
  lemma {:induction false} PlaceIsServerRun(s: P.State, known: Rooms, names: map<Fd, string>, id: ChId)
    returns (steps: seq<P.ServerStep>, end: P.State)
    requires Shows(s, known, names) && NoLocks(s) && s.spc.Probe? && s.spc.at in known
    requires s.spc.todo == known.Keys - {s.spc.at} && Placed(known, s.cap, s.spc.at, id)
    ensures Serves(s, steps, end) && Picked(s, end, s.spc.fd, id)
    ensures Shows(end, WithRoom(known, s.cap, id), names) && (id !in known ==> end.chans[id].pc.LoopCheck?)
  {
    var fd, preferred := s.spc.fd, s.spc.at;
    if HasSpace(known[preferred]) {
      ProbeHit(s, known, names);
      LockShows(s, known, names, preferred);
      steps := [P.ProbeLock, P.Ping];
      end := s.(chans := s.chans[preferred := s.chans[preferred].(lock := P.ByServer)],
                spc := P.AtJoin(fd, preferred, P.FromLobby));
    } else {
      ProbeFull(s, known, names);
      var search := s.(spc := P.Search(fd, s.spc.todo, s.spc.full + {preferred}));
      steps, end := PickElsewhere(search, known, names, preferred, id);
      ServesAppend(s, [P.ProbeLock, P.Ping], search, steps, end);
      steps := [P.ProbeLock, P.Ping] + steps;
    }
  }

  // ---------------------------------------------------------------- a whole lobby join

  /** The user leaves the lobby, then the lock is released. */
  lemma LeaveLobbyIsServerRun(s: P.State, rooms: Rooms, names: map<Fd, string>)
    returns (end: P.State)
    requires Shows(s, rooms, names) && s.spc.Settle? && s.spc.org.FromLobby? && s.spc.at in rooms
    ensures Serves(s, [P.Finish, P.ReleaseLock], end) && Shows(end, rooms, names)
    ensures end.spc.Idle? && end.lobby == s.lobby - {s.spc.fd} && end.chans[s.spc.at].lock.Free?
    ensures forall k :: k in s.chans && k != s.spc.at ==> end.chans[k] == s.chans[k]
  {
    ServesTwo(s, P.Finish, P.ReleaseLock);
    end := P.ServerApply(P.ServerApply(s, P.Finish), P.ReleaseLock);
  }

  lemma NamedIsShown(s: P.State, rooms: Rooms, names: map<Fd, string>, fd: Fd, name: string)
    requires Shows(s, rooms, names)
    ensures Shows(s.(named := s.named + {fd}), rooms, names[fd := name])
  {
  }

  /** From the request to the first probe. */
  lemma ArriveIsServerRun(s: P.State, rooms: Rooms, names: map<Fd, string>, fd: Fd, preferred: ChId, name: string)
    returns (end: P.State)
    requires Shows(s, rooms, names) && s.spc.Idle? && fd in s.lobby && NoLocks(s)
    ensures Serves(s, [P.LobbyJoin(fd, preferred)], end) && end.cap == s.cap && end.lobby == s.lobby && NoLocks(end)
    ensures Shows(end, WithRoom(rooms, s.cap, preferred), names[fd := name])
    ensures end.spc.Probe? && end.spc.fd == fd && end.spc.at == preferred
            && end.spc.todo == WithRoom(rooms, s.cap, preferred).Keys - {preferred}
    ensures forall k :: k in rooms ==> end.chans[k] == s.chans[k]
    ensures preferred !in rooms ==> end.chans[preferred].pc.LoopCheck?
  {
    ServesOne(s, P.LobbyJoin(fd, preferred));
    end := P.ServerApply(s, P.LobbyJoin(fd, preferred));
    NewIsShown(s, rooms, names, preferred);
    NamedIsShown(s.(chans := P.WithChannel(s.chans, preferred)), WithRoom(rooms, s.cap, preferred), names, fd, name);
    assert end.chans.Keys == WithRoom(rooms, s.cap, preferred).Keys;
  }

  lemma PlacedAgain(rooms: Rooms, cap: nat, preferred: ChId, id: ChId)
    requires Placed(rooms, cap, preferred, id)
    ensures Placed(WithRoom(rooms, cap, preferred), cap, preferred, id)
  {
  }

  /** From a locked channel on: the user is posted and leaves the lobby. */
  lemma PostIsServerRun(s: P.State, rooms: Rooms, names: map<Fd, string>, timestamp: nat)
    returns (steps: seq<P.ServerStep>, end: P.State)
    requires Shows(s, rooms, names) && s.spc.AtJoin? && s.spc.org.FromLobby? && s.spc.at in rooms && s.spc.fd in names
    requires rooms[s.spc.at].stop ==> s.chans[s.spc.at].pc.Exited?
    ensures Serves(s, steps, end)
    ensures Shows(end, rooms[s.spc.at := Admit(rooms[s.spc.at], names, s.spc.fd, timestamp, "join")], names)
    ensures end.spc.Idle? && end.lobby == s.lobby - {s.spc.fd} && end.chans[s.spc.at].lock.Free?
  {
    var posted: P.State;
    steps, posted := AdmitIsServerRun(s, rooms, names, timestamp, "join");
    end := LeaveLobbyIsServerRun(posted, rooms[s.spc.at := Admit(rooms[s.spc.at], names, s.spc.fd, timestamp, "join")], names);
    ServesAppend(s, steps, posted, [P.Finish, P.ReleaseLock], end);
    steps := steps + [P.Finish, P.ReleaseLock];
  }

  /** From the request to the lock of the channel that is picked. */
  lemma {:induction false} RequestIsServerRun(s: P.State, rooms: Rooms, names: map<Fd, string>, fd: Fd,
      preferred: ChId, id: ChId, name: string)
    returns (steps: seq<P.ServerStep>, end: P.State)
    requires Shows(s, rooms, names) && s.spc.Idle? && fd in s.lobby && NoLocks(s)
    requires Placed(rooms, s.cap, preferred, id)
    ensures Serves(s, steps, end) && end.spc == P.AtJoin(fd, id, P.FromLobby) && end.lobby == s.lobby
    ensures Shows(end, WithRoom(WithRoom(rooms, s.cap, preferred), s.cap, id), names[fd := name])
    ensures end.chans[id].pc == if id in rooms then s.chans[id].pc else P.LoopCheck
  {
    var known := WithRoom(rooms, s.cap, preferred);
    var probing := ArriveIsServerRun(s, rooms, names, fd, preferred, name);
    PlacedAgain(rooms, s.cap, preferred, id);
    var place: seq<P.ServerStep>;
    place, end := PlaceIsServerRun(probing, known, names[fd := name], id);
    ServesAppend(s, [P.LobbyJoin(fd, preferred)], probing, place, end);
    steps := [P.LobbyJoin(fd, preferred)] + place;
  }

  /** A lobby join is a run of the protocol's lobby thread: for every channel the placement rule allows,
      the user ends up posted there, out of the lobby, and the lock is released. */
  lemma JoinIsServerRun(s: P.State, rooms: Rooms, names: map<Fd, string>, fd: Fd, preferred: ChId, id: ChId,
                        timestamp: nat, name: string)
    returns (steps: seq<P.ServerStep>, end: P.State)
    requires Shows(s, rooms, names) && s.spc.Idle? && fd in s.lobby && NoLocks(s)
    requires Placed(rooms, s.cap, preferred, id)
    requires id in rooms && rooms[id].stop ==> s.chans[id].pc.Exited?
    ensures Serves(s, steps, end)
    ensures Shows(end, WithUser(rooms, s.cap, names[fd := name], fd, preferred, id, timestamp), names[fd := name])
    ensures end.spc.Idle? && end.lobby == s.lobby - {fd} && end.chans[id].lock.Free?
  {
    var ask, picked := RequestIsServerRun(s, rooms, names, fd, preferred, id, name);
    var post: seq<P.ServerStep>;
    post, end := PostIsServerRun(picked, WithRoom(WithRoom(rooms, s.cap, preferred), s.cap, id), names[fd := name], timestamp);
    ServesAppend(s, ask, picked, post, end);
    steps := ask + post;
  }

  // ---------------------------------------------------------------- the reaper

  /** The table after the channels in `unseen` were inspected too. */
  function ReapedAmong(rooms: Rooms, unseen: set<ChId>, now: nat): Rooms {
    map id | id in rooms && !(id in unseen && Reapable(rooms[id], now)) :: rooms[id]
  }

  lemma KeptIsShown(s: P.State, rooms: Rooms, names: map<Fd, string>, id: ChId)
    requires Shows(s, rooms, names)
    ensures Shows(s.(chans := s.chans - {id}), rooms - {id}, names)
  {
  }

  /** One channel: inspected, and destroyed if it looks idle for too long. */
  lemma InspectIsServerRun(s: P.State, rooms: Rooms, names: map<Fd, string>, id: ChId)
    returns (steps: seq<P.ServerStep>, end: P.State)
    requires Shows(s, rooms, names) && s.spc.Reaping? && id in s.spc.unseen && id in rooms
    requires Reapable(rooms[id], s.spc.sample) ==> s.chans[id].pc.Exited?
    ensures Serves(s, steps, end) && end.spc == P.Reaping(s.spc.sample, s.spc.unseen - {id})
    ensures Shows(end, Inspected(rooms, id, s.spc.sample), names)
    ensures end.chans == if Reapable(rooms[id], s.spc.sample) then s.chans - {id} else s.chans
    ensures end.cap == s.cap && end.lobby == s.lobby
  {
    end := P.ServerApply(s, P.Inspect(id));
    steps := [P.Inspect(id)];
    if Reapable(rooms[id], s.spc.sample) {
      ServesTwo(s, P.Inspect(id), P.Destroy);
      steps := [P.Inspect(id), P.Destroy];
      end := P.ServerApply(end, P.Destroy);
      KeptIsShown(s, rooms, names, id);
    } else {
      ServesOne(s, P.Inspect(id));
    }
  }

  lemma InspectedAmong(rooms: Rooms, unseen: set<ChId>, id: ChId, now: nat)
    requires id in unseen && id in rooms
    ensures ReapedAmong(Inspected(rooms, id, now), unseen - {id}, now) == ReapedAmong(rooms, unseen, now)
  {
    var a, b := ReapedAmong(Inspected(rooms, id, now), unseen - {id}, now), ReapedAmong(rooms, unseen, now);
    forall k ensures k in a <==> k in b {}
    forall k: ChId | k in a ensures a[k] == b[k] {}
    SameMap(a, b);
  }

  lemma {:induction false} ReapRest(s: P.State, rooms: Rooms, names: map<Fd, string>)
    returns (steps: seq<P.ServerStep>, end: P.State)
    requires Shows(s, rooms, names) && s.spc.Reaping? && s.spc.unseen <= rooms.Keys
    requires forall k :: k in s.spc.unseen && Reapable(rooms[k], s.spc.sample) ==> s.chans[k].pc.Exited?
    ensures Serves(s, steps, end) && end.spc == P.Reaping(s.spc.sample, {})
    ensures Shows(end, ReapedAmong(rooms, s.spc.unseen, s.spc.sample), names) && end.lobby == s.lobby
    decreases s.spc.unseen
  {
    var sample, unseen := s.spc.sample, s.spc.unseen;
    if unseen == {} {
      steps, end := [], s;
      forall k: ChId | k in rooms ensures k in ReapedAmong(rooms, {}, sample) {}
      SameMap(ReapedAmong(rooms, {}, sample), rooms);
    } else {
      var id := AnyOf(unseen);
      var first, next := InspectIsServerRun(s, rooms, names, id);
      var later: seq<P.ServerStep>;
      later, end := ReapRest(next, Inspected(rooms, id, sample), names);
      ServesAppend(s, first, next, later, end);
      InspectedAmong(rooms, unseen, id, sample);
      steps := first + later;
    }
  }

  lemma ReapedAll(rooms: Rooms, now: nat)
    ensures ReapedAmong(rooms, rooms.Keys, now) == Reaped(rooms, now)
  {
    var a, b := ReapedAmong(rooms, rooms.Keys, now), Reaped(rooms, now);
    forall k ensures k in a <==> k in b {}
    forall k: ChId | k in a ensures a[k] == b[k] {}
    SameMap(a, b);
  }

  /** `check_channels` is a run of the protocol's lobby thread: the clock is read once, and exactly the
      channels that look idle for too long are destroyed, once their workers have ended. */
  lemma ReapIsServerRun(s: P.State, rooms: Rooms, names: map<Fd, string>)
    returns (steps: seq<P.ServerStep>, end: P.State)
    requires Shows(s, rooms, names) && s.spc.Idle?
    requires forall k :: k in rooms && Reapable(rooms[k], s.now) ==> s.chans[k].pc.Exited?
    ensures Serves(s, steps, end) && end.spc.Idle? && end.lobby == s.lobby
    ensures Shows(end, Reaped(rooms, s.now), names)
  {
    var sampled := P.ServerApply(s, P.SampleClock);
    ServesOne(s, P.SampleClock);
    var rest, reaped := ReapRest(sampled, rooms, names);
    ServesAppend(s, [P.SampleClock], sampled, rest, reaped);
    ReapedAll(rooms, s.now);
    end := P.ServerApply(reaped, P.ReapEnd);
    ServesOne(reaped, P.ReapEnd);
    steps := [P.SampleClock] + rest;
    ServesAppend(s, steps, reaped, [P.ReapEnd], end);
    steps := steps + [P.ReapEnd];
  }
}
