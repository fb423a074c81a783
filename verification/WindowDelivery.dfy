/** From a channel's window to its clients' screens: the bytes that a tick sends are the window's text, and a
    client that gets them decodes exactly that text and shows it. */
module WindowDelivery {
  import opened JsonText
  import opened WindowJson
  import opened MessageWindows
  import opened ChannelRoom
  import opened ChannelTick
  import opened ChannelWindow
  import opened ClientDisplay
  import opened ClientWindow
  import opened Collections
  import C = Communication
  import CF = ClientFraming
  import CM = ClientMessages
  import H = HexHeader
  import F = Framing

  // ---------------------------------------------------------------- the text is printable

  lemma PrintableAppend(a: string, b: string)
    requires Printable(a) && Printable(b)
    ensures Printable(a + b)
  {
  }

  lemma {:induction false} EscapeIsPrintable(s: string)
    requires Printable(s)
    ensures Printable(Escape(s))
  {
    if s != "" {
      assert Printable(s[1..]) by { assert forall i :: 0 <= i < |s[1..]| ==> s[1..][i] == s[i + 1]; }
      EscapeIsPrintable(s[1..]);
      PrintableAppend(EscapeChar(s[0]), Escape(s[1..]));
    }
  }

  lemma {:induction false} DigitsArePrintable(n: nat)
    ensures Printable(Digits(n))
  {
    if n >= 10 { DigitsArePrintable(n / 10); }
  }

  lemma NumberIsPrintable(n: int)
    ensures Printable(Number(n))
  {
    DigitsArePrintable(if n < 0 then -n else n);
  }

  predicate PrintableMember(m: Member) {
    Printable(m.key) && (m.value.Text? ==> Printable(m.value.s))
  }

  lemma ValueIsPrintable(v: Value, more: string)
    requires (v.Text? ==> Printable(v.s)) && Printable(more)
    ensures Printable(ValueThen(v, more))
  {
    match v
    case Text(s) =>
      EscapeIsPrintable(s);
      PrintableAppend("\"", more);
      PrintableAppend(Escape(s), "\"" + more);
      PrintableAppend("\"", Escape(s) + ("\"" + more));
    case Int(n) =>
      NumberIsPrintable(n);
      PrintableAppend(Number(n), more);
  }

  lemma MemberIsPrintable(m: Member, more: string)
    requires PrintableMember(m) && Printable(more)
    ensures Printable(MemberThen(m, SERVER_GAP, more))
  {
    ValueIsPrintable(m.value, more);
    var value := ":" + SERVER_GAP + ValueThen(m.value, more);
    PrintableAppend(":" + SERVER_GAP, ValueThen(m.value, more));
    PrintableAppend("\"", value);
    PrintableAppend(m.key, "\"" + value);
    PrintableAppend("\"", m.key + ("\"" + value));
  }

  predicate PrintableObject(o: Object) {
    forall i :: 0 <= i < |o| ==> PrintableMember(o[i])
  }

  lemma {:induction false} TailBodyIsPrintable(o: Object)
    requires PrintableObject(o)
    ensures Printable(TailBody(o))
  {
    if o != [] {
      assert forall i :: 0 <= i < |o[1..]| ==> o[1..][i] == o[i + 1];
      TailBodyIsPrintable(o[1..]);
      MemberIsPrintable(o[0], TailBody(o[1..]));
      PrintableAppend(", ", MemberThen(o[0], SERVER_GAP, TailBody(o[1..])));
    }
  }

  lemma KeysArePrintable()
    ensures Printable("type") && Printable("user_name") && Printable("event") && Printable("timestamp")
    ensures Printable("channel_id") && Printable("user") && Printable("system")
  {
  }

  lemma ObjectIsPrintable(m: Msg, channel: nat)
    requires Printable(m.userName) && Printable(m.text)
    ensures PrintableObject(ObjectOf(m, channel))
  {
    KeysArePrintable();
  }

  lemma BodyIsPrintable(m: Msg, channel: nat)
    requires Printable(m.userName) && Printable(m.text)
    ensures Printable(Body(ObjectOf(m, channel)))
  {
    var o := ObjectOf(m, channel);
    ObjectIsPrintable(m, channel);
    assert forall i :: 0 <= i < |o[1..]| ==> o[1..][i] == o[i + 1];
    TailBodyIsPrintable(o[1..]);
    MemberIsPrintable(o[0], TailBody(o[1..]));
  }

  lemma {:induction false} MoreIsPrintable(bodies: seq<string>)
    requires forall i :: 0 <= i < |bodies| ==> Printable(bodies[i])
    ensures Printable(More(bodies))
  {
    if bodies != [] {
      assert forall i :: 0 <= i < |bodies[1..]| ==> bodies[1..][i] == bodies[i + 1];
      MoreIsPrintable(bodies[1..]);
      BracedIsPrintable(bodies[0], More(bodies[1..]));
      PrintableAppend(", ", "{" + (bodies[0] + ("}" + More(bodies[1..]))));
    }
  }

  lemma BracedIsPrintable(body: string, more: string)
    requires Printable(body) && Printable(more)
    ensures Printable("{" + (body + ("}" + more)))
  {
    PrintableAppend("}", more);
    PrintableAppend(body, "}" + more);
    PrintableAppend("{", body + ("}" + more));
  }

  lemma {:induction false} BodiesArePrintable(w: seq<Msg>, channel: nat)
    requires forall i :: 0 <= i < |w| ==> Printable(w[i].userName) && Printable(w[i].text)
    ensures forall i :: 0 <= i < |Bodies(w, channel)| ==> Printable(Bodies(w, channel)[i])
  {
    if w != [] {
      assert forall i :: 0 <= i < |w[1..]| ==> w[1..][i] == w[i + 1];
      BodiesArePrintable(w[1..], channel);
      BodyIsPrintable(w[0], channel);
    }
  }

  lemma WindowIsPrintable(w: seq<Msg>, channel: nat)
    requires forall i :: 0 <= i < |w| ==> Printable(w[i].userName) && Printable(w[i].text)
    ensures Printable(WindowText(w, channel))
  {
    var bodies := Bodies(w, channel);
    BodiesArePrintable(w, channel);
    if bodies != [] {
      assert forall i :: 0 <= i < |bodies[1..]| ==> bodies[1..][i] == bodies[i + 1];
      MoreIsPrintable(bodies[1..]);
      BracedIsPrintable(bodies[0], More(bodies[1..]));
      PrintableAppend("[", "{" + (bodies[0] + ("}" + More(bodies[1..]))));
    }
  }

  // ---------------------------------------------------------------- from the wire to the screen

  /** A client whose connection holds all of a window's frame takes exactly one payload out of it, the
      window's text, and shows the window. */
  lemma WireShowsWindow(w: seq<Msg>, channel: nat, wire: seq<H.Byte>, user: string, id: int)
    requires Clean(w) && user != "" && channel < 0x8000_0000 && |WindowText(w, channel)| <= 16384
    requires wire == C.OnWire(Bytes(WindowText(w, channel)))
    ensures CF.Decode(wire) == CF.Result([Bytes(WindowText(w, channel))], [], CF.Waiting, false)
    ensures TextOf(CF.Decode(wire).frames[0]) == WindowText(w, channel)
    ensures SeeAll(user, id, Shown(TextOf(CF.Decode(wire).frames[0])))
            == Seen(LinesOf(ShownOf(w), channel), ChannelAfter(w, channel, user, id), false)
  {
    var text := WindowText(w, channel);
    var payload := Bytes(text);
    C.OnWireIsEncoded(payload);
    CF.ServerToClient([payload]);
    assert F.EncodeAll([payload]) == F.Encode(payload) + [] == F.Encode(payload);
    assert F.NonEmpty([payload]) == [payload] + [] == [payload];
    WindowIsPrintable(w, channel);
    BytesReadBack(text);
    WindowIsShown(w, channel, user, id);
  }

  // ---------------------------------------------------------------- a new member sees itself arrive

  /** The message with which the lobby or a switch posts a user to a channel. */
  predicate IsJoinOf(m: Msg, fd: Fd, user: string) {
    m.from == fd && m.kind.System? && m.userName == user && (m.text == "join" || m.text == "rejoin")
  }

  lemma OwnJoinIsThere(w: seq<Msg>, m: Msg, fd: Fd, user: string)
    requires m in w && IsJoinOf(m, fd, user)
    ensures Joins(w, user)
  {
    var k :| 0 <= k < |w| && w[k] == m;
    assert OwnJoin(w[k], user);
  }

  /** A user with a pending join and a slot: the next tick that polls makes it a client, and a client program
      that gets that tick's frame learns from it which channel it is in. */
  lemma JoinerFollows(r: Room, i: Input, fd: Fd, wire: seq<H.Byte>, user: string, id: int)
    requires IsOrder(i.order) && !i.pollFails && Within(r) && fd in r.joinPool && fd !in r.clients
    requires IsJoinOf(r.joinPool[fd], fd, user) && user != "" && 0 < r.id < 0x8000_0000
    requires |Tick(r, i).state.windows| == |r.windows| + 1 ==>
               var w := Tick(r, i).state.windows[|r.windows|];
               Clean(w) && |WindowText(w, r.id)| <= 16384 && wire == C.OnWire(Bytes(WindowText(w, r.id)))
    ensures |CF.Decode(wire).frames| == 1 && !SeeAll(user, id, Shown(TextOf(CF.Decode(wire).frames[0]))).threw
    ensures SeeAll(user, id, Shown(TextOf(CF.Decode(wire).frames[0]))).channelId == r.id
  {
    JoinIsShown(r, i, fd);
    var w := Tick(r, i).state.windows[|r.windows|];
    OwnJoinIsThere(w, r.joinPool[fd], fd, user);
    WireShowsWindow(w, r.id, wire, user, id);
  }

  // ---------------------------------------------------------------- the text, spelled out

  lemma TextMemberIs(key: string, s: string, more: string)
    ensures MemberThen(Member(key, Text(s)), SERVER_GAP, more) == ("\"" + key + "\": \"") + (Escape(s) + ("\"" + more))
  {
    var value := Escape(s) + ("\"" + more);
    assert ":" + SERVER_GAP + ("\"" + value) == ": \"" + value;
    assert "\"" + (": \"" + value) == "\": \"" + value;
    assert "\"" + (key + ("\": \"" + value)) == ("\"" + key + "\": \"") + value;
  }

  lemma IntMemberIs(key: string, n: int, more: string)
    ensures MemberThen(Member(key, Int(n)), SERVER_GAP, more) == ("\"" + key + "\": ") + (Number(n) + more)
  {
    var value := Number(n) + more;
    assert ":" + SERVER_GAP + value == ": " + value;
    assert "\"" + (": " + value) == "\": " + value;
    assert "\"" + (key + ("\": " + value)) == ("\"" + key + "\": ") + value;
  }

  /** What stands behind the kind of a message. */
  function Rest(m: Msg, end: string): string {
    "\", \"user_name\": \"" + (Escape(m.userName) + ("\", \"event\": \"" + (Escape(m.text)
    + ("\", \"timestamp\": " + (Number(m.timestamp) + end)))))
  }

  lemma Three(a: string, b: string, c: string, x: string)
    ensures a + (b + (c + x)) == (a + b + c) + x
  {
  }

  lemma Separators()
    ensures "\"" + ", " + ("\"" + "user_name" + "\": \"") == "\", \"user_name\": \""
    ensures "\"" + ", " + ("\"" + "event" + "\": \"") == "\", \"event\": \""
    ensures "\"" + ", " + ("\"" + "timestamp" + "\": ") == "\", \"timestamp\": "
    ensures "" + ", " + ("\"" + "channel_id" + "\": ") == ", \"channel_id\": "
  {
  }

  lemma Openings()
    ensures ("\"" + "type" + "\": \"") + "user" == "\"type\": \"user"
    ensures ("\"" + "type" + "\": \"") + "system" == "\"type\": \"system"
  {
  }

  lemma KindsAreUnescaped()
    ensures Escape("user") == "user" && Escape("system") == "system"
  {
    CM.EscapeUnchanged("user");
    CM.EscapeUnchanged("system");
  }

  /** The four members that every message has, before whatever follows them. */
  lemma FourMembers(kind: string, m: Msg, end: string)
    requires Escape(kind) == kind
    ensures MemberThen(Member("type", Text(kind)), SERVER_GAP,
              ", " + MemberThen(Member("user_name", Text(m.userName)), SERVER_GAP,
                ", " + MemberThen(Member("event", Text(m.text)), SERVER_GAP,
                  ", " + MemberThen(Member("timestamp", Int(m.timestamp)), SERVER_GAP, end))))
            == ("\"" + "type" + "\": \"") + (kind + Rest(m, end))
  {
    var time := ", " + MemberThen(Member("timestamp", Int(m.timestamp)), SERVER_GAP, end);
    var event := ", " + MemberThen(Member("event", Text(m.text)), SERVER_GAP, time);
    var name := ", " + MemberThen(Member("user_name", Text(m.userName)), SERVER_GAP, event);
    Separators();
    IntMemberIs("timestamp", m.timestamp, end);
    Three("\"", ", ", "\"" + "timestamp" + "\": ", Number(m.timestamp) + end);
    TextMemberIs("event", m.text, time);
    Three("\"", ", ", "\"" + "event" + "\": \"", Escape(m.text) + ("\"" + time));
    TextMemberIs("user_name", m.userName, event);
    Three("\"", ", ", "\"" + "user_name" + "\": \"", Escape(m.userName) + ("\"" + event));
    TextMemberIs("type", kind, name);
  }

  lemma TailBodyCons(m: Member, rest: Object)
    ensures TailBody([m] + rest) == ", " + MemberThen(m, SERVER_GAP, TailBody(rest))
  {
    assert ([m] + rest)[1..] == rest;
  }

  lemma BodyCons(m: Member, rest: Object)
    ensures Body([m] + rest) == MemberThen(m, SERVER_GAP, TailBody(rest))
  {
    assert ([m] + rest)[1..] == rest;
  }

  lemma {:induction false} BodyOfFour(a: Member, b: Member, c: Member, d: Member, more: Object)
    ensures Body([a, b, c, d] + more)
            == MemberThen(a, SERVER_GAP, ", " + MemberThen(b, SERVER_GAP, ", " + MemberThen(c, SERVER_GAP,
                 ", " + MemberThen(d, SERVER_GAP, TailBody(more)))))
  {
    var d1 := [d] + more;
    var c1 := [c] + d1;
    var b1 := [b] + c1;
    assert [a, b, c, d] + more == [a] + b1;
    TailBodyCons(d, more);
    TailBodyCons(c, d1);
    TailBodyCons(b, c1);
    BodyCons(a, b1);
  }

  lemma ChannelMember(channel: nat)
    ensures TailBody([Member("channel_id", Int(channel))]) == ", \"channel_id\": " + Number(channel)
  {
    var o := [Member("channel_id", Int(channel))];
    assert o[1..] == [] && Number(channel) + "" == Number(channel);
    IntMemberIs("channel_id", channel, "");
    Separators();
    Three("", ", ", "\"" + "channel_id" + "\": ", Number(channel));
    assert "" + (", " + ("\"" + "channel_id" + "\": " + Number(channel))) == TailBody(o);
  }

  /** What `json_dumps` writes between the braces for one message. */
  lemma MessageText(m: Msg, channel: nat)
    ensures Body(ObjectOf(m, channel))
            == if m.kind.User? then "\"type\": \"user" + Rest(m, "")
               else "\"type\": \"system" + Rest(m, ", \"channel_id\": " + Number(channel))
  {
    var kind := if m.kind.User? then "user" else "system";
    var more: Object := if m.kind.User? then [] else [Member("channel_id", Int(channel))];
    BodyOfFour(Member("type", Text(kind)), Member("user_name", Text(m.userName)), Member("event", Text(m.text)),
               Member("timestamp", Int(m.timestamp)), more);
    KindsAreUnescaped();
    FourMembers(kind, m, TailBody(more));
    ChannelMember(channel);
    Openings();
    Regroup("\"" + "type" + "\": \"", kind, Rest(m, TailBody(more)));
  }
}
