/** A window is broadcast as one frame. When its text is longer than a frame may be, the send fails for
    every client, and the same tick deletes them all. */
module ChannelOverflow {
  import opened MessageWindows
  import opened ChannelRoom
  import opened ChannelTick
  import opened ChannelRuns
  import opened ChannelDeletion
  import opened WindowJson
  import opened JsonText
  import opened HexHeader
  import opened Framing
  import C = Communication
  import J = ClientJson
  import CM = ClientMessages

  /** The channel just before this tick's broadcast, and the window it will send. */
  function BeforeBroadcast(r: Room, i: Input): Room {
    ResolvePool(HandleAll(Cleared(r), i.events), i.order, i.now)
  }

  function WindowOf(r: Room, i: Input): seq<Msg> {
    var p := BeforeBroadcast(r, i);
    EmplaceAll(p.cur, p.mq)
  }

  /** The kernel accepts any frame of legal size, in whatever pieces. */
  ghost predicate Reliable(links: Links) {
    forall fd, n: nat :: n <= MAX_FRAME_SIZE ==> links(fd).headerSent == 4 && C.Completes(n, links(fd).sends)
  }

  lemma SuchLinksExist()
    ensures Reliable(_ => C.Link(4, [MAX_FRAME_SIZE]))
  {
    var links: Links := _ => C.Link(4, [MAX_FRAME_SIZE]);
    forall fd, n: nat | n <= MAX_FRAME_SIZE ensures links(fd).headerSent == 4 && C.Completes(n, links(fd).sends) {
      assert [MAX_FRAME_SIZE][1..] == [] && C.Completes(0, []);
    }
  }

  predicate NoBadEvents(events: seq<Event>) {
    forall k :: 0 <= k < |events| ==> !IsBad(events[k])
  }

  lemma {:induction false} GoodEventsMarkNobody(r: Room, events: seq<Event>)
    requires NoBadEvents(events)
    ensures HandleAll(r, events).marked == r.marked && HandleAll(r, events).clients == r.clients
    ensures HandleAll(r, events).id == r.id
    decreases |events|
  {
    if events != [] {
      var e := events[0];
      if e.Chat? { PushAllIs(r.(rbuf := r.rbuf + {e.fd}), e.msgs); }
      GoodEventsMarkNobody(Handle(r, e), events[1..]);
    }
  }

  lemma {:induction false} AddAllKeepsMarks(r: Room, fds: seq<Fd>, pool: map<Fd, Msg>)
    requires forall fd :: fd in fds ==> fd in pool
    ensures AddAll(r, fds, pool).marked == r.marked && AddAll(r, fds, pool).id == r.id
    decreases |fds|
  {
    if fds != [] { AddAllKeepsMarks(AddOne(r, fds[0], pool[fds[0]]), fds[1..], pool); }
  }

  lemma {:induction false} DropAllKeepsMarks(r: Room, fds: seq<Fd>, pool: map<Fd, Msg>)
    requires forall fd :: fd in fds ==> fd in pool
    ensures DropAll(r, fds, pool).marked == r.marked && DropAll(r, fds, pool).id == r.id
    decreases |fds|
  {
    if fds != [] { DropAllKeepsMarks(DropOne(r, fds[0], pool[fds[0]]), fds[1..], pool); }
  }

  lemma PoolKeepsMarks(r: Room, order: Order, now: nat)
    ensures ResolvePool(r, order, now).marked == r.marked && ResolvePool(r, order, now).id == r.id
  {
    AddAllKeepsMarks(r.(joinPool := map[]), Restricted(order(r.joinPool.Keys), r.joinPool.Keys), r.joinPool);
    var j := Joined(r, order);
    DropAllKeepsMarks(j.(leavePool := map[]), Restricted(order(j.leavePool.Keys), j.leavePool.Keys), j.leavePool);
  }

  /** Over reliable links a frame below 4 GiB fails for all clients or for none, by its size alone. */
  lemma FailedBySize(n: nat, clients: set<Fd>, links: Links)
    requires Reliable(links) && n < UINT32_RANGE
    ensures Failed(n, clients, links) == if n <= 16384 then {} else clients
  {
    assert n % UINT32_RANGE == n;
    forall fd ensures C.Delivers(n, links(fd)) <==> n <= MAX_FRAME_SIZE {
      if n <= MAX_FRAME_SIZE { assert links(fd).headerSent == 4 && C.Completes(n, links(fd).sends); }
    }
    forall fd ensures fd in Failed(n, clients, links) <==> fd in if n <= MAX_FRAME_SIZE then {} else clients {}
  }

  lemma DeletionLeaves(b: Room, order: Order, now: nat, names: map<Fd, string>)
    requires IsOrder(order)
    ensures b.marked == {} ==> ResolveDeletion(b, order, now, names).clients == b.clients
    ensures b.clients <= b.marked ==> ResolveDeletion(b, order, now, names).clients == {}
  {
    var left := ResolveDeletion(b, order, now, names).clients;
    DeleteAllEffect(b, order(b.marked), now, names);
    assert forall fd :: fd in left <==> fd in b.clients && fd !in b.marked;
    if b.marked == {} { SameSet(left, b.clients); }
    if b.clients <= b.marked { SameSet(left, {}); }
  }

  lemma SameSet<T>(a: set<T>, b: set<T>)
    requires forall x :: x in a <==> x in b
    ensures a == b
  {
  }

  /** With working connections and no disconnects, a tick keeps every client when the text of its window
      has at most 16384 bytes, and otherwise deletes every one of them. */
  lemma {:induction false} TickKeepsOrEmpties(r: Room, i: Input)
    requires IsOrder(i.order) && !i.pollFails && NoBadEvents(i.events) && Reliable(i.links)
    requires |WindowText(WindowOf(r, i), r.id)| < UINT32_RANGE
    ensures Tick(r, i).state.clients
            == if |WindowText(WindowOf(r, i), r.id)| <= 16384 then BeforeBroadcast(r, i).clients else {}
  {
    TickIsComposition(r, i);
    GoodEventsMarkNobody(Cleared(r), i.events);
    PoolKeepsMarks(HandleAll(Cleared(r), i.events), i.order, i.now);
    var p := BeforeBroadcast(r, i);
    FailedBySize(|WindowText(WindowOf(r, i), r.id)|, p.clients, i.links);
    assert {} + p.clients == p.clients;
    DeletionLeaves(BeforeDeletion(r, i), i.order, i.now, i.names);
  }

  /** So everyone stays exactly when the window fits a frame. */
  lemma EveryoneStaysExactly(r: Room, i: Input)
    requires IsOrder(i.order) && !i.pollFails && NoBadEvents(i.events) && Reliable(i.links)
    ensures var n, before := |WindowText(WindowOf(r, i), r.id)|, BeforeBroadcast(r, i).clients;
            n < UINT32_RANGE && before != {} ==> (Tick(r, i).state.clients == before <==> n <= 16384)
  {
    if |WindowText(WindowOf(r, i), r.id)| < UINT32_RANGE { TickKeepsOrEmpties(r, i); }
  }

  // ---------------------------------------------------------------- one legal request

  lemma MemberLength(m: Member, gap: string, more: string)
    ensures |MemberThen(m, gap, more)|
            == |m.key| + 3 + |gap| + (if m.value.Text? then 2 + |Escape(m.value.s)| else |Number(m.value.n)|) + |more|
  {
  }

  lemma FourMembersLength(a: Member, b: Member, c: Member, d: Member)
    ensures |Body([a, b, c, d])| == |MemberThen(a, SERVER_GAP, "")| + |MemberThen(b, SERVER_GAP, "")|
                                    + |MemberThen(c, SERVER_GAP, "")| + |MemberThen(d, SERVER_GAP, "")| + 6
  {
    var o := [a, b, c, d];
    assert o[1..] == [b, c, d] && [b, c, d][1..] == [c, d] && [c, d][1..] == [d] && [d][1..] == [];
    TailBodyLength([d]);
    TailBodyLength([c, d]);
    TailBodyLength([b, c, d]);
    MoreLength(a, TailBody([b, c, d]));
    assert TailBody([]) == "";
  }

  lemma MoreLength(m: Member, more: string)
    ensures |MemberThen(m, SERVER_GAP, more)| == |MemberThen(m, SERVER_GAP, "")| + |more|
  {
    MemberLength(m, SERVER_GAP, more);
    MemberLength(m, SERVER_GAP, "");
  }

  lemma TailBodyLength(o: Object)
    requires o != []
    ensures |TailBody(o)| == 2 + |MemberThen(o[0], SERVER_GAP, "")| + |TailBody(o[1..])|
  {
    MoreLength(o[0], TailBody(o[1..]));
  }

  lemma OneObjectLength(body: string)
    ensures |ArrayText([body])| == 4 + |body|
  {
    assert [body][1..] == [];
  }

  lemma UserMembers(m: Msg, channel: nat)
    requires m.kind.User?
    ensures ObjectOf(m, channel)
            == [Member("type", Text("user")), Member("user_name", Text(m.userName)), Member("event", Text(m.text)),
                Member("timestamp", Int(m.timestamp))]
  {
  }

  /** A window of one user message is its escaped name and text, its timestamp and 63 more characters. */
  lemma OneMessageLength(m: Msg, channel: nat)
    requires m.kind.User?
    ensures |WindowText([m], channel)| == 63 + |Escape(m.userName)| + |Escape(m.text)| + |Number(m.timestamp)|
  {
    var a, b := Member("type", Text("user")), Member("user_name", Text(m.userName));
    var c, d := Member("event", Text(m.text)), Member("timestamp", Int(m.timestamp));
    UserMembers(m, channel);
    FourMembersLength(a, b, c, d);
    MemberLength(a, SERVER_GAP, "");
    MemberLength(b, SERVER_GAP, "");
    MemberLength(c, SERVER_GAP, "");
    MemberLength(d, SERVER_GAP, "");
    UserIsUnescaped();
    var body := Body(ObjectOf(m, channel));
    assert [m][1..] == [] && Bodies([m], channel) == [body] + [] == [body];
    OneObjectLength(body);
  }

  lemma UserIsUnescaped()
    ensures |Escape("user")| == 4
  {
    CM.EscapeUnchanged("user");
  }

  /** The request that posts it is its escaped text, its timestamp and 43 more characters. */
  lemma {:induction false} RequestLength(text: string, now: int)
    ensures |Print(J.ChatMessage(text, now), CM.NO_GAP)| == 43 + |Escape(text)| + |Number(now)|
  {
    var a, b, c := Member("type", Text("message")), Member("text", Text(text)), Member("timestamp", Int(now));
    CM.ThreeMembers(a, b, c);
    CM.EscapeKind("message");
    assert [c][1..] == [];
    MemberLength(c, CM.NO_GAP, "}");
    var cs := ", " + MemberThen(c, CM.NO_GAP, "}");
    MemberLength(b, CM.NO_GAP, cs);
    MemberLength(a, CM.NO_GAP, ", " + MemberThen(b, CM.NO_GAP, cs));
  }

  lemma OneMessageTick(r: Room, i: Input, m: Msg)
    requires IsOrder(i.order) && r.mq == [] && r.joinPool == map[] && r.leavePool == map[]
    requires i.events == [Chat(m.from, [m])]
    ensures BeforeBroadcast(r, i).clients == r.clients && WindowOf(r, i) == [m]
    ensures NoBadEvents(i.events)
  {
    var e, c := Chat(m.from, [m]), Cleared(r);
    var h := HandleAll(c, i.events);
    assert i.events[0] == e && i.events[1..] == [];
    PushAllIs(c.(rbuf := c.rbuf + {m.from}), [m]);
    assert c.mq + [m] == [m];
    assert h == HandleAll(Handle(c, e), []) == Handle(c, e);
    assert h.mq == [m] && h.cur == [] && h.clients == r.clients;
    NoneRestricted(i.order({}));
    assert h.joinPool.Keys == {} && h.leavePool.Keys == {};
    assert Joined(h, i.order) == h.(joinPool := map[]);
    assert Left(Joined(h, i.order), i.order).clients == r.clients;
    OneInWindow(m);
    assert BeforeBroadcast(r, i).mq == [m] && BeforeBroadcast(r, i).cur == [];
  }

  lemma {:induction false} NoneRestricted(fds: seq<Fd>)
    ensures Restricted(fds, {}) == []
  {
    if fds != [] { NoneRestricted(fds[1..]); }
  }

  lemma OneInWindow(m: Msg)
    ensures EmplaceAll([], [m]) == [m]
  {
    assert [m][1..] == [] && Emplace([], m) == [m] + [] == [m];
  }

  /** A user says something in an otherwise quiet channel: the whole channel is emptied exactly when the
      window around it is too long, which leaves a range of texts whose own request is still legal. */
  lemma OneMessageEmptiesExactly(r: Room, i: Input, m: Msg)
    requires IsOrder(i.order) && !i.pollFails && Reliable(i.links)
    requires r.mq == [] && r.joinPool == map[] && r.leavePool == map[] && r.clients != {}
    requires m.kind.User? && i.events == [Chat(m.from, [m])]
    requires |Escape(m.userName)| + |Escape(m.text)| + |Number(m.timestamp)| < 0x1000_0000
    ensures Tick(r, i).state.clients == {}
            <==> |Escape(m.userName)| + |Escape(m.text)| + |Number(m.timestamp)| > 16384 - 63
    ensures |Print(J.ChatMessage(m.text, m.timestamp), CM.NO_GAP)| <= 16384
            <==> |Escape(m.text)| + |Number(m.timestamp)| <= 16384 - 43
  {
    OneMessageTick(r, i, m);
    OneMessageLength(m, r.id);
    RequestLength(m.text, m.timestamp);
    TickKeepsOrEmpties(r, i);
  }

  function Xs(n: nat): string { seq(n, _ => 'x') }

  /** A request of 16376 bytes arrives at the server as one frame, and the window made of it deletes every
      client of the channel. */
  lemma LegalRequestEmptiesChannel(r: Room, i: Input, fd: Fd, name: string)
    requires IsOrder(i.order) && !i.pollFails && Reliable(i.links) && |Escape(name)| < 0x100_0000
    requires r.mq == [] && r.joinPool == map[] && r.leavePool == map[] && r.clients != {}
    requires i.events == [Chat(fd, [Msg(fd, User, Xs(16320), 1700000000000, name)])]
    ensures var request := Bytes(Print(J.ChatMessage(Xs(16320), 1700000000000), CM.NO_GAP));
            |request| == 16376 && Parse(ClientEncode(request)) == Parsed([request], [], false)
    ensures Tick(r, i).state.clients == {}
  {
    var text, now := Xs(16320), 1700000000000;
    CM.EscapeUnchanged(text);
    NumberOfNow();
    OneMessageEmptiesExactly(r, i, Msg(fd, User, text, now, name));
    LongRequestIsLegal(text, now);
  }

  lemma LongRequestIsLegal(text: string, now: nat)
    requires |Escape(text)| == 16320 && |Number(now)| == 13
    ensures var request := Bytes(Print(J.ChatMessage(text, now), CM.NO_GAP));
            |request| == 16376 && Parse(ClientEncode(request)) == Parsed([request], [], false)
  {
    RequestLength(text, now);
    var request := Bytes(Print(J.ChatMessage(text, now), CM.NO_GAP));
    ClientFrameArrivesExactly(request);
    assert NonEmpty([request]) == [request] + [] == [request];
  }

  lemma NumberOfNow()
    ensures |Number(1700000000000)| == 13
  {
    assert |Digits(1)| == 1;
    assert |Digits(17)| == 2;
    assert |Digits(170)| == 3;
    assert |Digits(1700)| == 4;
    assert |Digits(17000)| == 5;
    assert |Digits(170000)| == 6;
    assert |Digits(1700000)| == 7;
    assert |Digits(17000000)| == 8;
    assert |Digits(170000000)| == 9;
    assert |Digits(1700000000)| == 10;
    assert |Digits(17000000000)| == 11;
    assert |Digits(170000000000)| == 12;
  }
}
