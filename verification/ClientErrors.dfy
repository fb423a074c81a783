/** The server's error frames, which are literals without blanks, as the Windows client reads them. */
module ClientErrors {
  import opened Collections
  import opened JsonText
  import opened ClientJson
  import opened JsonExtraction
  import opened ClientWindow
  import opened ClientDisplay
  import CM = ClientMessages

  const NO_GAP: string := ""

  /** An object of two members with nothing after its colons and its comma. */
  function Compact(a: Member, b: Member): string {
    "{" + MemberThen(a, NO_GAP, "," + MemberThen(b, NO_GAP, "}"))
  }

  function ErrorFrame(message: string): string {
    Compact(Member("type", Text("error")), Member("message", Text(message)))
  }

  /** The closing quote before a bare comma starts no match. */
  lemma CommaSkips(rest: string, k: string)
    requires PlainKey(k) && k != ","
    ensures After("\"" + ("," + ("\"" + rest)), SearchKey(k)) == After("\"" + rest, SearchKey(k))
  {
    var more := "," + ("\"" + rest);
    var t := "\"" + more;
    assert t[1..2] == "," && t[2] == '"';
    NextQuote(t, k, 2);
    OneSkips("\"", more, k);
    QuoteFreeSkips(",", "\"" + rest, k);
  }

  lemma LastMember(b: Member, k: string)
    requires PlainKey(k) && PlainKey(b.key) && k != ":" + NO_GAP
    ensures After(MemberThen(b, NO_GAP, "}"), SearchKey(k)) == if b.key == k then Some(NO_GAP + ValueThen(b.value, "}")) else None
  {
    if b.key == k {
      MemberFound(b, NO_GAP, "}");
    } else {
      MemberSkips(b, [], NO_GAP, k);
      QuoteFreeHasNone("}", k);
    }
  }

  /** What the search finds in such an object. */
  lemma FoundInCompact(a: Member, b: Member, k: string)
    requires PlainKey(a.key) && PlainKey(b.key) && PlainKey(k) && a.value.Text? && k != ":" + NO_GAP && k != ","
    ensures After(Compact(a, b), SearchKey(k))
            == if a.key == k then Some(NO_GAP + ValueThen(a.value, "," + MemberThen(b, NO_GAP, "}")))
               else if b.key == k then Some(NO_GAP + ValueThen(b.value, "}")) else None
  {
    var second := MemberThen(b, NO_GAP, "}");
    var more := "," + second;
    assert more[0] == ',';
    if a.key == k {
      QuoteFreeSkips("{", MemberThen(a, NO_GAP, more), k);
      MemberFound(a, NO_GAP, more);
    } else {
      UpToCloseOfText(a.key, a.value.s, NO_GAP, more, k);
      CommaSkips(b.key + ("\"" + (":" + NO_GAP + ValueThen(b.value, "}"))), k);
      LastMember(b, k);
    }
  }

  lemma ReadsCompact(a: Member, b: Member, k: string)
    requires PlainKey(a.key) && PlainKey(b.key) && PlainKey(k) && a.value.Text? && b.value.Text?
    requires k != ":" + NO_GAP && k != ","
    ensures StringOf(Compact(a, b), k)
            == if a.key == k then ReadBack(a.value.s) else if b.key == k then ReadBack(b.value.s) else ""
    ensures a.key != k && b.key != k ==> IntOf(Compact(a, b), k) == Some(0)
  {
    FoundInCompact(a, b, k);
    ReadsValue(a.value, "," + MemberThen(b, NO_GAP, "}"), NO_GAP);
    ReadsValue(b.value, "}", NO_GAP);
  }

  lemma ErrorField(message: string, k: string)
    requires PlainKey(k) && k != "" && k[0] != ':' && k != ","
    ensures StringOf(ErrorFrame(message), k)
            == if k == "type" then ReadBack("error") else if k == "message" then ReadBack(message) else ""
    ensures k != "type" && k != "message" ==> IntOf(ErrorFrame(message), k) == Some(0)
  {
    GapKeyIsNot(NO_GAP, k);
    ReadsCompact(Member("type", Text("error")), Member("message", Text(message)), k);
  }

  lemma {:induction false} ErrorKind(message: string)
    ensures StringOf(ErrorFrame(message), "type") == "error"
  {
    ErrorField(message, "type");
    PrintableReadsBack("error");
  }

  lemma {:induction false} ErrorText(message: string)
    requires Printable(message)
    ensures StringOf(ErrorFrame(message), "message") == message
  {
    ErrorField(message, "message");
    PrintableReadsBack(message);
  }

  lemma ErrorHasNoUser(message: string)
    ensures StringOf(ErrorFrame(message), "user_name") == ""
  {
    ErrorField(message, "user_name");
  }

  lemma ErrorHasNoEvent(message: string)
    ensures StringOf(ErrorFrame(message), "event") == ""
  {
    ErrorField(message, "event");
  }

  lemma ErrorHasNoChannel(message: string)
    ensures IntOf(ErrorFrame(message), "channel_id") == Some(0)
  {
    ErrorField(message, "channel_id");
  }

  /** An error frame is no array, so it is handed on whole. */
  lemma ErrorIsNotCut(message: string)
    ensures Shown(ErrorFrame(message)) == [ErrorFrame(message)]
  {
    assert ErrorFrame(message)[0] == '{';
  }

  /** A refusal is handed on whole, is read as an error with its message and nothing else, is shown, and moves no channel. */
  lemma ErrorIsShown(message: string, user: string, id: int)
    requires Printable(message) && message != ""
    ensures ParseLine(ErrorFrame(message)) == Some(Line("error", "", "", message, 0))
    ensures Shown(ErrorFrame(message)) == [ErrorFrame(message)]
    ensures IsPrinted(Line("error", "", "", message, 0)) && Follow(user, id, Line("error", "", "", message, 0)) == id
  {
    ErrorKind(message);
    ErrorText(message);
    ErrorHasNoUser(message);
    ErrorHasNoEvent(message);
    ErrorHasNoChannel(message);
    ErrorIsNotCut(message);
  }

  // ---------------------------------------------------------------- the literals of the server

  const OPENING: string := "{\"type\":\"error\",\"message\":\""

  lemma OpeningPieces()
    ensures "{" + "\"type\":\"" + "error" + "\"" + "," + "\"message\":\"" == OPENING
  {
  }

  lemma ErrorIsUnescaped()
    ensures Escape("error") == "error"
  {
    CM.EscapeUnchanged("error");
  }

  lemma TypeMember(more: string)
    ensures MemberThen(Member("type", Text("error")), NO_GAP, more) == "\"type\":\"" + ("error" + ("\"" + more))
  {
    ErrorIsUnescaped();
    CM.TextMember("\"type\":\"", "type", "error", more);
  }

  lemma {:induction false} MessageMember(message: string)
    ensures MemberThen(Member("message", Text(message)), NO_GAP, "}") == "\"message\":\"" + (Escape(message) + ("\"" + "}"))
  {
    CM.TextMember("\"message\":\"", "message", message, "}");
  }

  /** The frame `{"type":"error","message":"..."}` with the message in its place. */
  lemma ErrorFrameText(message: string)
    ensures ErrorFrame(message) == OPENING + (Escape(message) + "\"}")
  {
    var y := Escape(message) + ("\"" + "}");
    assert "\"" + "}" == "\"}";
    TypeMember("," + MemberThen(Member("message", Text(message)), NO_GAP, "}"));
    MessageMember(message);
    CM.Nested("{", "\"type\":\"", "error", "\"", ",", "\"message\":\"", y);
    OpeningPieces();
  }
}
