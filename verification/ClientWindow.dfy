/** From a channel's message window to what the Windows client shows of it and to the channel it believes
    it is in, whatever names and texts the users chose. */
module ClientWindow {
  import opened Collections
  import opened ClientJson
  import opened JsonExtraction
  import opened JsonText
  import opened WindowJson
  import opened ClientDisplay
  import MW = MessageWindows

  // ---------------------------------------------------------------- objects and their braces

  lemma MemberThenAppend(m: Member, x: string, y: string)
    ensures MemberThen(m, SERVER_GAP, x + y) == MemberThen(m, SERVER_GAP, x) + y
  {
    assert ValueThen(m.value, x + y) == ValueThen(m.value, x) + y by {
      match m.value
      case Text(s) => assert Escape(s) + ("\"" + (x + y)) == (Escape(s) + ("\"" + x)) + y;
      case Int(n) => assert Number(n) + (x + y) == (Number(n) + x) + y;
    }
    var v := ValueThen(m.value, x);
    assert m.key + ("\"" + (":" + SERVER_GAP + (v + y))) == (m.key + ("\"" + (":" + SERVER_GAP + v))) + y;
  }

  lemma {:induction false} TailIsBody(o: Object)
    ensures Tail(o, SERVER_GAP) == TailBody(o) + "}"
  {
    if o != [] {
      TailIsBody(o[1..]);
      MemberThenAppend(o[0], TailBody(o[1..]), "}");
    }
  }

  lemma {:induction false} PrintIsWrapped(o: Object)
    ensures Print(o, SERVER_GAP) == Wrap(Body(o))
  {
    if o != [] {
      TailIsBody(o[1..]);
      MemberThenAppend(o[0], TailBody(o[1..]), "}");
    }
  }

  // ---------------------------------------------------------------- braces

  predicate BraceFreeMember(m: Member) {
    '}' !in m.key && (m.value.Text? ==> '}' !in m.value.s)
  }

  lemma {:induction false} EscapeKeepsBraces(v: string)
    ensures '}' in Escape(v) <==> '}' in v
  {
    if v != "" {
      EscapeKeepsBraces(v[1..]);
      assert v == [v[0]] + v[1..];
    }
  }

  lemma MemberBraces(m: Member, more: string)
    ensures '}' in MemberThen(m, SERVER_GAP, more) <==> !BraceFreeMember(m) || '}' in more
  {
    match m.value
    case Text(s) => EscapeKeepsBraces(s);
    case Int(n) =>
      NumberChars(n);
      assert '}' !in Number(n);
  }

  lemma {:induction false} TailBraces(o: Object)
    ensures '}' !in TailBody(o) <==> forall i :: 0 <= i < |o| ==> BraceFreeMember(o[i])
  {
    if o != [] {
      TailBraces(o[1..]);
      MemberBraces(o[0], TailBody(o[1..]));
      assert o == [o[0]] + o[1..];
    }
  }

  lemma {:induction false} BodyBraces(o: Object)
    ensures '}' !in Body(o) <==> forall i :: 0 <= i < |o| ==> BraceFreeMember(o[i])
  {
    if o != [] {
      TailBraces(o[1..]);
      MemberBraces(o[0], TailBody(o[1..]));
      assert o == [o[0]] + o[1..];
    }
  }

  predicate BraceFreeMsg(m: MW.Msg) {
    '}' !in m.userName && '}' !in m.text
  }

  lemma KeysHaveNoBraces(m: MW.Msg, channel: nat)
    ensures forall i :: 0 <= i < |ObjectOf(m, channel)| ==> '}' !in ObjectOf(m, channel)[i].key
  {
  }

  lemma ValuesHaveBraces(m: MW.Msg, channel: nat, i: nat)
    requires i < |ObjectOf(m, channel)|
    ensures var v := ObjectOf(m, channel)[i].value;
            (v.Text? && '}' in v.s) <==> (i == 1 && '}' in m.userName) || (i == 2 && '}' in m.text)
  {
  }

  lemma {:induction false} MsgBraces(m: MW.Msg, channel: nat)
    ensures '}' !in Body(ObjectOf(m, channel)) <==> BraceFreeMsg(m)
  {
    var o := ObjectOf(m, channel);
    BodyBraces(o);
    KeysHaveNoBraces(m, channel);
    assert |o| >= 4;
    forall i | 0 <= i < |o|
      ensures !BraceFreeMember(o[i]) <==> (i == 1 && '}' in m.userName) || (i == 2 && '}' in m.text)
    {
      ValuesHaveBraces(m, channel, i);
    }
    assert !BraceFreeMember(o[1]) <==> '}' in m.userName;
    assert !BraceFreeMember(o[2]) <==> '}' in m.text;
  }

  function Objects(w: seq<MW.Msg>, channel: nat): seq<string> {
    if w == [] then [] else [Print(ObjectOf(w[0], channel), SERVER_GAP)] + Objects(w[1..], channel)
  }

  lemma {:induction false} BodiesAreObjects(w: seq<MW.Msg>, channel: nat)
    ensures WrapAll(Bodies(w, channel)) == Objects(w, channel) && |Bodies(w, channel)| == |w|
    ensures forall i :: 0 <= i < |w| ==> Bodies(w, channel)[i] == Body(ObjectOf(w[i], channel))
  {
    if w != [] {
      BodiesAreObjects(w[1..], channel);
      PrintIsWrapped(ObjectOf(w[0], channel));
    }
  }

  /** The client cuts a window into its messages, in broadcast order, exactly when no name and no text
      holds a closing brace. */
  lemma WindowCutExactly(w: seq<MW.Msg>, channel: nat)
    ensures Shown(WindowText(w, channel)) == Objects(w, channel)
            <==> forall i :: 0 <= i < |w| ==> BraceFreeMsg(w[i])
  {
    var bodies := Bodies(w, channel);
    BodiesAreObjects(w, channel);
    ArrayCutExactly(bodies);
    forall i | 0 <= i < |w| ensures '}' !in bodies[i] <==> BraceFreeMsg(w[i]) { MsgBraces(w[i], channel); }
  }

  // ---------------------------------------------------------------- what the client reads of one object

  datatype Line = Line(kind: string, user: string, event: string, message: string, channel: int)

  /** `parse_and_print`; None when `stoi` throws. */
  function ParseLine(json: string): Option<Line> {
    match IntOf(json, "channel_id")
    case None => None
    case Some(n) =>
      Some(Line(StringOf(json, "type"), StringOf(json, "user_name"), StringOf(json, "event"),
                StringOf(json, "message"), n))
  }

  method ParseAndPrint(json: string) returns (line: Option<Line>)
    ensures line == ParseLine(json)
  {
    var kind := ExtractJsonString(json, "type");
    var user := ExtractJsonString(json, "user_name");
    var event := ExtractJsonString(json, "event");
    var message := ExtractJsonString(json, "message");
    var n := ExtractJsonInt(json, "channel_id");
    if n.None? { return None; }
    line := Some(Line(kind, user, event, message, n.value));
  }

  /** Printable ASCII, for which the server's JSON library escapes as `json_escape` does. */
  predicate Printable(s: string) {
    forall i :: 0 <= i < |s| ==> ' ' <= s[i] <= '~'
  }

  lemma PrintableReadsBack(s: string)
    requires Printable(s)
    ensures ReadBack(s) == s
  {
    ReadsBackExactly(s);
  }

  function LineOf(m: MW.Msg, channel: nat): Line {
    Line(if m.kind.User? then "user" else "system", m.userName, m.text, "", if m.kind.User? then 0 else channel)
  }

  lemma ObjectIsWellFormed(m: MW.Msg, channel: nat)
    ensures WellFormed(ObjectOf(m, channel))
  {
    var o := ObjectOf(m, channel);
    forall i | 0 <= i < |o| ensures PlainKey(o[i].key) && o[i].key == MessageKey(i) {
      KeyIsPlain(i);
    }
    forall i, j | 0 <= i < j < |o| ensures o[i].key != o[j].key {
      KeysDiffer(i, j);
    }
  }

  function MessageKey(i: nat): string {
    match i
    case 0 => "type"
    case 1 => "user_name"
    case 2 => "event"
    case 3 => "timestamp"
    case _ => "channel_id"
  }

  lemma KeyIsPlain(i: nat)
    ensures PlainKey(MessageKey(i))
  {
  }

  lemma KeysDiffer(i: nat, j: nat)
    requires i < j < 5
    ensures MessageKey(i) != MessageKey(j)
  {
    assert |MessageKey(i)| != |MessageKey(j)| || MessageKey(i)[0] != MessageKey(j)[0];
  }

  lemma ObjectIsColonFree(m: MW.Msg, channel: nat)
    ensures ColonFree(ObjectOf(m, channel))
  {
  }

  lemma {:induction false} LookupAt(o: Object, k: string, i: nat)
    requires i <= |o| && (forall j :: 0 <= j < i ==> o[j].key != k) && (i < |o| ==> o[i].key == k)
    ensures Lookup(o, k) == if i == |o| then None else Some(o[i].value)
  {
    if i > 0 { LookupAt(o[1..], k, i - 1); }
  }

  lemma FieldIs(m: MW.Msg, channel: nat, k: string, i: nat)
    requires PlainKey(k) && k != "" && k[0] != ':'
    requires var o := ObjectOf(m, channel);
             i <= |o| && (forall j :: 0 <= j < i ==> o[j].key != k) && (i < |o| ==> o[i].key == k)
    ensures var o := ObjectOf(m, channel);
            && (StringOf(Print(o, SERVER_GAP), k)
                == if i < |o| && o[i].value.Text? then ReadBack(o[i].value.s) else "")
            && (IntOf(Print(o, SERVER_GAP), k) == if i == |o| then Some(0) else ExpectedInt(o, k))
  {
    var o := ObjectOf(m, channel);
    ObjectIsWellFormed(m, channel);
    ObjectIsColonFree(m, channel);
    GapKeyIsNot(SERVER_GAP, k);
    LookupAt(o, k, i);
    NoForgedKey(o, SERVER_GAP, k);
    NoForgedInt(o, SERVER_GAP, k);
  }

  lemma TypeIsRead(m: MW.Msg, channel: nat)
    ensures StringOf(Print(ObjectOf(m, channel), SERVER_GAP), "type") == if m.kind.User? then "user" else "system"
  {
    FieldIs(m, channel, "type", 0);
    PrintableReadsBack(if m.kind.User? then "user" else "system");
  }

  lemma NameIsRead(m: MW.Msg, channel: nat)
    requires Printable(m.userName)
    ensures StringOf(Print(ObjectOf(m, channel), SERVER_GAP), "user_name") == m.userName
  {
    FieldIs(m, channel, "user_name", 1);
    PrintableReadsBack(m.userName);
  }

  lemma EventIsRead(m: MW.Msg, channel: nat)
    requires Printable(m.text)
    ensures StringOf(Print(ObjectOf(m, channel), SERVER_GAP), "event") == m.text
  {
    FieldIs(m, channel, "event", 2);
    PrintableReadsBack(m.text);
  }

  lemma {:induction false} NoErrorIsRead(m: MW.Msg, channel: nat)
    ensures StringOf(Print(ObjectOf(m, channel), SERVER_GAP), "message") == ""
  {
    FieldIs(m, channel, "message", |ObjectOf(m, channel)|);
  }

  lemma ChannelIsRead(m: MW.Msg, channel: nat)
    ensures IntOf(Print(ObjectOf(m, channel), SERVER_GAP), "channel_id")
            == if m.kind.User? then Some(0) else if channel < 0x8000_0000 then Some(channel) else None
  {
    FieldIs(m, channel, "channel_id", 4);
    LookupAt(ObjectOf(m, channel), "channel_id", 4);
  }

  /** A message is read back field by field, whatever its name and text spell; only a channel id beyond
      `int` makes the client fail, and only on system messages. */
  lemma MessageIsRead(m: MW.Msg, channel: nat)
    requires Printable(m.userName) && Printable(m.text)
    ensures ParseLine(Print(ObjectOf(m, channel), SERVER_GAP))
            == if m.kind.System? && channel >= 0x8000_0000 then None else Some(LineOf(m, channel))
  {
    TypeIsRead(m, channel);
    NameIsRead(m, channel);
    EventIsRead(m, channel);
    NoErrorIsRead(m, channel);
    ChannelIsRead(m, channel);
  }

  // ---------------------------------------------------------------- the client's screen

  /** `print_line` on the current channel: only the client's own joins and rejoins move it. */
  function Follow(user: string, id: int, l: Line): int {
    if l.kind == "system" && l.event != "" && l.user != "" && user == l.user
       && (l.event == "join" || l.event == "rejoin") && l.channel > 0
    then l.channel else id
  }

  /** Whether `print_line` prints anything for a line. */
  predicate IsPrinted(l: Line) {
    || (l.kind == "system" && l.event != "" && l.user != "")
    || (l.kind == "user" && l.user != "" && l.event != "")
    || (l.kind == "error" && l.message != "")
  }

  function Printed(l: Line): seq<Line> { if IsPrinted(l) then [l] else [] }

  /** What is shown until the end or until an exception. */
  datatype Seen = Seen(lines: seq<Line>, channelId: int, threw: bool)

  function SeeAll(user: string, id: int, texts: seq<string>): Seen
    decreases |texts|
  {
    if texts == [] then Seen([], id, false)
    else
      match ParseLine(texts[0])
      case None => Seen([], id, true)
      case Some(l) =>
        var later := SeeAll(user, Follow(user, id, l), texts[1..]);
        Seen(Printed(l) + later.lines, later.channelId, later.threw)
  }

  /** The lines shown so far, followed by what the remaining texts add. */
  function SeenAfter(lines: seq<Line>, user: string, id: int, texts: seq<string>): Seen {
    var later := SeeAll(user, id, texts);
    Seen(lines + later.lines, later.channelId, later.threw)
  }

  lemma SeenStep(lines: seq<Line>, user: string, id: int, texts: seq<string>)
    requires texts != []
    ensures SeenAfter(lines, user, id, texts)
            == match ParseLine(texts[0])
               case None => Seen(lines, id, true)
               case Some(l) => SeenAfter(lines + Printed(l), user, Follow(user, id, l), texts[1..])
  {
    if ParseLine(texts[0]).Some? {
      var l := ParseLine(texts[0]).value;
      var later := SeeAll(user, Follow(user, id, l), texts[1..]).lines;
      assert lines + (Printed(l) + later) == (lines + Printed(l)) + later;
    }
  }

  class Screen {
    const userName: string
    var channelId: int
    var lines: seq<Line>

    constructor (user: string)
      ensures userName == user && channelId == 0 && lines == []
    {
      userName, channelId, lines := user, 0, [];
    }

    method PrintLine(l: Line)
      modifies this
      ensures channelId == Follow(userName, old(channelId), l) && lines == old(lines) + Printed(l)
    {
      if l.kind == "" { return; }
      if l.kind == "system" {
        if l.event != "" && l.user != "" {
          if userName == l.user && (l.event == "join" || l.event == "rejoin") {
            if l.channel > 0 { channelId := l.channel; }
          }
          lines := lines + [l];
        }
      } else if l.kind == "user" {
        if l.user != "" && l.event != "" { lines := lines + [l]; }
      } else if l.kind == "error" {
        if l.message != "" { lines := lines + [l]; }
      }
    }

    method Display(payload: string) returns (threw: bool)
      modifies this
      ensures var seen := SeeAll(userName, old(channelId), Shown(payload));
              lines == old(lines) + seen.lines && channelId == seen.channelId && threw == seen.threw
    {
      var texts := DisplayMessage(payload);
      ghost var all := SeenAfter(lines, userName, channelId, texts);
      while texts != []
        invariant SeenAfter(lines, userName, channelId, texts) == all
        decreases |texts|
      {
        SeenStep(lines, userName, channelId, texts);
        var line := ParseAndPrint(texts[0]);
        if line.None? { return true; }
        PrintLine(line.value);
        texts := texts[1..];
      }
      threw := false;
    }
  }

  // ---------------------------------------------------------------- windows on the screen

  /** A message with an empty name or an empty text is not shown at all. */
  predicate IsShown(m: MW.Msg) {
    m.userName != "" && m.text != ""
  }

  function ShownOf(w: seq<MW.Msg>): seq<MW.Msg> {
    if w == [] then [] else (if IsShown(w[0]) then [w[0]] else []) + ShownOf(w[1..])
  }

  function LinesOf(w: seq<MW.Msg>, channel: nat): seq<Line> {
    if w == [] then [] else [LineOf(w[0], channel)] + LinesOf(w[1..], channel)
  }

  lemma {:induction false} AllShownExactly(w: seq<MW.Msg>)
    ensures |ShownOf(w)| <= |w|
    ensures ShownOf(w) == w <==> forall i :: 0 <= i < |w| ==> IsShown(w[i])
  {
    if w != [] {
      AllShownExactly(w[1..]);
      assert w == [w[0]] + w[1..];
      if IsShown(w[0]) {
        assert ([w[0]] + ShownOf(w[1..]))[1..] == ShownOf(w[1..]);
      } else {
        assert |ShownOf(w)| < |w|;
      }
    }
  }

  lemma ShownIsPrinted(m: MW.Msg, channel: nat)
    ensures Printed(LineOf(m, channel)) == if IsShown(m) then [LineOf(m, channel)] else []
  {
    var l := LineOf(m, channel);
    assert l.kind == "system" || l.kind == "user";
    assert l.user == m.userName && l.event == m.text;
  }

  predicate OwnJoin(m: MW.Msg, user: string) {
    m.kind.System? && m.userName == user && (m.text == "join" || m.text == "rejoin")
  }

  predicate Clean(w: seq<MW.Msg>) {
    forall i :: 0 <= i < |w| ==> Printable(w[i].userName) && Printable(w[i].text) && BraceFreeMsg(w[i])
  }

  predicate Joins(w: seq<MW.Msg>, user: string) {
    exists i :: 0 <= i < |w| && OwnJoin(w[i], user)
  }

  lemma FollowsOwnJoin(m: MW.Msg, channel: nat, user: string, id: int)
    requires user != ""
    ensures Follow(user, id, LineOf(m, channel)) == if OwnJoin(m, user) && channel > 0 then channel else id
  {
  }

  lemma LinesOfCons(m: MW.Msg, rest: seq<MW.Msg>, channel: nat)
    ensures LinesOf([m] + rest, channel) == [LineOf(m, channel)] + LinesOf(rest, channel)
  {
    assert ([m] + rest)[1..] == rest;
  }

  lemma SeesOne(m: MW.Msg, channel: nat, user: string, id: int, later: seq<string>)
    requires Printable(m.userName) && Printable(m.text) && user != "" && channel < 0x8000_0000
    ensures var rest := SeeAll(user, if OwnJoin(m, user) && channel > 0 then channel else id, later);
            SeeAll(user, id, [Print(ObjectOf(m, channel), SERVER_GAP)] + later)
            == Seen((if IsShown(m) then [LineOf(m, channel)] else []) + rest.lines, rest.channelId, rest.threw)
  {
    var texts := [Print(ObjectOf(m, channel), SERVER_GAP)] + later;
    assert texts[1..] == later;
    MessageIsRead(m, channel);
    FollowsOwnJoin(m, channel, user, id);
    ShownIsPrinted(m, channel);
  }

  lemma {:induction false} LinesOfShown(w: seq<MW.Msg>, channel: nat)
    requires w != []
    ensures LinesOf(ShownOf(w), channel)
            == (if IsShown(w[0]) then [LineOf(w[0], channel)] else []) + LinesOf(ShownOf(w[1..]), channel)
  {
    LinesOfCons(w[0], ShownOf(w[1..]), channel);
    assert [] + ShownOf(w[1..]) == ShownOf(w[1..]);
  }

  function ChannelAfter(w: seq<MW.Msg>, channel: nat, user: string, id: int): int {
    if Joins(w, user) && channel > 0 then channel else id
  }

  lemma {:induction false} ObjectsAreSeen(w: seq<MW.Msg>, channel: nat, user: string, id: int)
    requires Clean(w) && user != "" && channel < 0x8000_0000
    ensures SeeAll(user, id, Objects(w, channel))
            == Seen(LinesOf(ShownOf(w), channel), ChannelAfter(w, channel, user, id), false)
  {
    if w != [] {
      var next := if OwnJoin(w[0], user) && channel > 0 then channel else id;
      SeesOne(w[0], channel, user, id, Objects(w[1..], channel));
      assert Clean(w[1..]) by { assert forall i :: 0 <= i < |w[1..]| ==> w[1..][i] == w[i + 1]; }
      ObjectsAreSeen(w[1..], channel, user, next);
      LinesOfShown(w, channel);
      JoinsStep(w, user);
    }
  }

  lemma JoinsStep(w: seq<MW.Msg>, user: string)
    requires w != []
    ensures Joins(w, user) <==> OwnJoin(w[0], user) || Joins(w[1..], user)
  {
    if Joins(w[1..], user) {
      var i :| 0 <= i < |w[1..]| && OwnJoin(w[1..][i], user);
      assert OwnJoin(w[i + 1], user);
    }
    if i :| 0 < i < |w| && OwnJoin(w[i], user) { assert OwnJoin(w[1..][i - 1], user); }
  }

  /** Of a window exactly the messages with a name and a text are shown, in broadcast order and as they
      were broadcast, so all of them exactly when every one has both. The client's own channel changes
      exactly when the window holds its own join or rejoin: no text a user can type moves it. */
  lemma WindowIsShown(w: seq<MW.Msg>, channel: nat, user: string, id: int)
    requires Clean(w) && user != "" && channel < 0x8000_0000
    ensures SeeAll(user, id, Shown(WindowText(w, channel)))
            == Seen(LinesOf(ShownOf(w), channel), ChannelAfter(w, channel, user, id), false)
    ensures ShownOf(w) == w <==> forall i :: 0 <= i < |w| ==> IsShown(w[i])
  {
    AllShownExactly(w);
    WindowCutExactly(w, channel);
    ObjectsAreSeen(w, channel, user, id);
  }

  predicate HasSystem(w: seq<MW.Msg>) {
    exists i :: 0 <= i < |w| && w[i].kind.System?
  }

  lemma HasSystemStep(w: seq<MW.Msg>)
    requires w != []
    ensures HasSystem(w) <==> w[0].kind.System? || HasSystem(w[1..])
  {
    if i :| 0 <= i < |w[1..]| && w[1..][i].kind.System? { assert w[i + 1].kind.System?; }
    if i :| 0 < i < |w| && w[i].kind.System? { assert w[1..][i - 1].kind.System?; }
  }

  lemma {:induction false} ObjectsThrow(w: seq<MW.Msg>, channel: nat, user: string, id: int)
    requires Clean(w) && user != "" && channel >= 0x8000_0000
    ensures SeeAll(user, id, Objects(w, channel)).threw <==> HasSystem(w)
  {
    if w != [] {
      var later := Objects(w[1..], channel);
      assert Objects(w, channel)[1..] == later;
      HasSystemStep(w);
      MessageIsRead(w[0], channel);
      if w[0].kind.User? {
        var l := LineOf(w[0], channel);
        ObjectsThrow(w[1..], channel, user, Follow(user, id, l));
        assert SeeAll(user, id, Objects(w, channel)).threw == SeeAll(user, Follow(user, id, l), later).threw;
      }
    }
  }

  /** Showing a window fails exactly when the channel id exceeds `int` and a system message carries it. */
  lemma WindowThrowsExactly(w: seq<MW.Msg>, channel: nat, user: string, id: int)
    requires Clean(w) && user != ""
    ensures SeeAll(user, id, Shown(WindowText(w, channel))).threw
            <==> channel >= 0x8000_0000 && HasSystem(w)
  {
    WindowCutExactly(w, channel);
    if channel < INT_LIMIT { ObjectsAreSeen(w, channel, user, id); } else { ObjectsThrow(w, channel, user, id); }
  }
}
