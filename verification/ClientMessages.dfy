/** The requests the Windows client builds by string concatenation in `main`. */
module ClientMessages {
  import opened ClientJson
  import opened JsonText

  const NO_GAP: string := ""

  lemma EscapeKind(kind: string)
    requires kind == "join" || kind == "message"
    ensures Escape(kind) == kind
  {
    assert forall i :: 0 <= i < |kind| ==> EscapeChar(kind[i]) == [kind[i]];
    EscapeUnchanged(kind);
  }

  lemma {:induction false} EscapeUnchanged(s: string)
    requires forall i :: 0 <= i < |s| ==> EscapeChar(s[i]) == [s[i]]
    ensures Escape(s) == s
  {
    if s != "" {
      EscapeUnchanged(s[1..]);
      assert s == [s[0]] + s[1..];
    }
  }

  /** The last member of every request and the closing brace. */
  lemma EndsWithTimestamp(now: int)
    ensures Tail([Member("timestamp", Int(now))], NO_GAP) == ", \"timestamp\":" + (Number(now) + "}")
  {
    var o, rest := [Member("timestamp", Int(now))], Number(now) + "}";
    assert o[1..] == [];
    assert ":" + NO_GAP + rest == ":" + rest;
    Nested(", ", "\"", "timestamp", "\"", ":", "", rest);
    TimestampKey();
    assert "" + rest == rest;
  }

  lemma TimestampKey()
    ensures ", " + "\"" + "timestamp" + "\"" + ":" + "" == ", \"timestamp\":"
  {
  }

  /** A text member after the first. */
  lemma TextMember(open: string, key: string, text: string, more: string)
    requires open == "\"" + key + "\":\""
    ensures MemberThen(Member(key, Text(text)), NO_GAP, more) == open + (Escape(text) + ("\"" + more))
  {
    var value := Escape(text) + ("\"" + more);
    assert ":" + NO_GAP + ("\"" + value) == ":\"" + value;
    assert "\"" + (":\"" + value) == "\":\"" + value;
    assert "\"" + (key + ("\":\"" + value)) == ("\"" + key + "\":\"") + value;
  }

  /** A chat message: `text` is what the user typed. */
  method BuildChatMessage(text: string, now: int) returns (req: string)
    ensures req == Print(ChatMessage(text, now), NO_GAP)
  {
    var escaped := JsonEscape(text);
    req := "{\"type\":\"message\", \"text\":\"" + escaped + "\", \"timestamp\":" + Number(now) + "}";
    ChatMessageText(text, now);
  }

  lemma Opening()
    ensures "{" + "\"type\":\"" + "message" + "\"" + ", " + "\"text\":\"" == "{\"type\":\"message\", \"text\":\""
  {
  }

  lemma Nested(a: string, b: string, c: string, d: string, e: string, f: string, y: string)
    ensures a + (b + (c + (d + (e + (f + y))))) == (a + b + c + d + e + f) + y
  {
    LeftToRight(a, b, c, d, e + (f + y));
    assert a + b + c + d + e + f + y == (a + b + c + d) + (e + (f + y));
  }

  lemma LeftToRight(a: string, b: string, c: string, d: string, e: string)
    ensures a + b + c + d + e == a + (b + (c + (d + e)))
  {
  }

  lemma TypeMember(more: string)
    ensures MemberThen(Member("type", Text("message")), NO_GAP, more) == "\"type\":\"" + ("message" + ("\"" + more))
  {
    EscapeKind("message");
    TextMember("\"type\":\"", "type", "message", more);
  }

  lemma {:induction false} UserTextMember(text: string, more: string)
    ensures MemberThen(Member("text", Text(text)), NO_GAP, more) == "\"text\":\"" + (Escape(text) + ("\"" + more))
  {
    TextMember("\"text\":\"", "text", text, more);
  }

  lemma ThreeMembers(a: Member, b: Member, c: Member)
    ensures Print([a, b, c], NO_GAP)
            == "{" + MemberThen(a, NO_GAP, ", " + MemberThen(b, NO_GAP, Tail([c], NO_GAP)))
  {
    var o := [a, b, c];
    assert o[1..] == [b, c] && o[1..][1..] == [c];
  }

  /** The object of a chat message, piece by piece. */
  lemma ChatMessagePieces(text: string, now: int)
    ensures Print(ChatMessage(text, now), NO_GAP)
            == "{" + ("\"type\":\"" + ("message" + ("\"" + (", " + ("\"text\":\""
                + (Escape(text) + ("\"" + (", \"timestamp\":" + (Number(now) + "}")))))))))
  {
    var a, b, c := Member("type", Text("message")), Member("text", Text(text)), Member("timestamp", Int(now));
    ThreeMembers(a, b, c);
    EndsWithTimestamp(now);
    var end := Tail([c], NO_GAP);
    UserTextMember(text, end);
    TypeMember(", " + MemberThen(b, NO_GAP, end));
  }

  lemma ChatMessageText(text: string, now: int)
    ensures Print(ChatMessage(text, now), NO_GAP)
            == "{\"type\":\"message\", \"text\":\"" + Escape(text) + "\", \"timestamp\":" + Number(now) + "}"
  {
    ChatMessagePieces(text, now);
    Opening();
    Flatten(Escape(text), Number(now));
  }

  lemma Flatten(e: string, n: string)
    ensures "{" + ("\"type\":\"" + ("message" + ("\"" + (", " + ("\"text\":\""
                + (e + ("\"" + (", \"timestamp\":" + (n + "}")))))))))
            == "{\"type\":\"message\", \"text\":\"" + e + "\", \"timestamp\":" + n + "}"
  {
    Opening();
    var y := e + ("\"" + (", \"timestamp\":" + (n + "}")));
    Nested("{", "\"type\":\"", "message", "\"", ", ", "\"text\":\"", y);
    assert "\"" + (", \"timestamp\":" + (n + "}")) == "\", \"timestamp\":" + (n + "}");
    LeftToRight("{\"type\":\"message\", \"text\":\"", e, "\", \"timestamp\":", n, "}");
  }
}
