/** `display_message` of the Windows client: cutting a broadcast array into objects at braces, and what
    the client shows of a message window. */
module ClientDisplay {
  import opened JsonText

  // ---------------------------------------------------------------- the cut loop

  /** From each `{` to the next `}`; `open` is the object being read, empty between objects. */
  function Cuts(s: string, open: string): seq<string> {
    if s == "" then []
    else if open == "" then Cuts(s[1..], if s[0] == '{' then "{" else "")
    else if s[0] == '}' then [open + "}"] + Cuts(s[1..], "")
    else Cuts(s[1..], open + [s[0]])
  }

  lemma {:induction false} CutsSkip(x: string, y: string)
    requires '{' !in x
    ensures Cuts(x + y, "") == Cuts(y, "")
  {
    if x == "" {
      assert x + y == y;
    } else {
      assert (x + y)[1..] == x[1..] + y;
      CutsSkip(x[1..], y);
    }
  }

  lemma {:induction false} CutsGrow(x: string, y: string, open: string)
    requires '}' !in x && open != ""
    ensures Cuts(x + y, open) == Cuts(y, open + x)
  {
    if x == "" {
      assert x + y == y && open + x == open;
    } else {
      assert (x + y)[1..] == x[1..] + y && (open + [x[0]]) + x[1..] == open + x;
      CutsGrow(x[1..], y, open + [x[0]]);
    }
  }

  /** One object, cut at its first closing brace. */
  lemma CutsObject(body: string, more: string)
    requires '}' !in body
    ensures Cuts("{" + (body + ("}" + more)), "") == [Wrap(body)] + Cuts(more, "")
  {
    var rest := body + ("}" + more);
    assert ("{" + rest)[1..] == rest;
    CutsGrow(body, "}" + more, "{");
    assert ("}" + more)[1..] == more && ("{" + body) + "}" == Wrap(body);
  }

  /** `isspace` in the C locale. */
  predicate IsSpaceChar(c: char) {
    c == ' ' || 9 <= c as int <= 13
  }

  function SkipSpaceChars(s: string): string {
    if s != "" && IsSpaceChar(s[0]) then SkipSpaceChars(s[1..]) else s
  }

  /** The texts handed to `parse_and_print`, in order. */
  function Shown(payload: string): seq<string> {
    var t := SkipSpaceChars(payload);
    if t != "" && t[0] == '[' then Cuts(t[1..], "") else [payload]
  }

  method FindChar(s: string, c: char, start: nat) returns (i: nat)
    requires start <= |s|
    ensures start <= i <= |s| && c !in s[start..i] && (i < |s| ==> s[i] == c)
  {
    i := start;
    while i < |s| && s[i] != c
      invariant start <= i <= |s| && c !in s[start..i]
    {
      i := i + 1;
    }
  }

  method DisplayMessage(payload: string) returns (shown: seq<string>)
    ensures shown == Shown(payload)
  {
    var start := 0;
    while start < |payload| && IsSpaceChar(payload[start])
      invariant start <= |payload| && SkipSpaceChars(payload[start..]) == SkipSpaceChars(payload)
    {
      assert payload[start..][1..] == payload[start + 1..];
      start := start + 1;
    }
    if start == |payload| || payload[start] != '[' { return [payload]; }
    assert payload[start..][1..] == payload[start + 1..];
    shown := CutFrom(payload, start + 1);
  }

  /** One round of the loop: an object from `i` to `j`. */
  lemma NextCut(s: string, pos: nat, i: nat, j: nat)
    requires pos <= i < j < |s| && '{' !in s[pos..i] && s[i] == '{' && '}' !in s[i + 1..j] && s[j] == '}'
    ensures Cuts(s[pos..], "") == [s[i..j + 1]] + Cuts(s[j + 1..], "")
  {
    var body, more := s[i + 1..j], s[j + 1..];
    assert s[pos..] == s[pos..i] + ("{" + (body + ("}" + more)));
    CutsSkip(s[pos..i], "{" + (body + ("}" + more)));
    CutsObject(body, more);
    assert Wrap(body) == s[i..j + 1];
  }

  /** No further object: no opening brace, or no closing one after it. */
  lemma NoCut(s: string, pos: nat, i: nat)
    requires pos <= i <= |s| && '{' !in s[pos..i] && (i < |s| ==> s[i] == '{' && '}' !in s[i + 1..])
    ensures Cuts(s[pos..], "") == []
  {
    assert s[pos..] == s[pos..i] + s[i..];
    CutsSkip(s[pos..i], s[i..]);
    if i < |s| {
      assert s[i..][1..] == s[i + 1..] && s[i + 1..] + "" == s[i + 1..];
      CutsGrow(s[i + 1..], "", "{");
    }
  }

  /** The `while (pos < payload.size())` loop. */
  method CutFrom(payload: string, start: nat) returns (shown: seq<string>)
    requires start <= |payload|
    ensures shown == Cuts(payload[start..], "")
  {
    var pos := start;
    shown := [];
    ghost var all := Cuts(payload[start..], "");
    while pos < |payload|
      invariant start <= pos <= |payload| && shown + Cuts(payload[pos..], "") == all
      decreases |payload| - pos
    {
      var objStart := FindChar(payload, '{', pos);
      if objStart == |payload| {
        NoCut(payload, pos, objStart);
        return;
      }
      var objEnd := FindChar(payload, '}', objStart);
      assert '}' !in payload[objStart + 1..objEnd] by {
        assert payload[objStart..objEnd][1..] == payload[objStart + 1..objEnd];
      }
      if objEnd == |payload| {
        NoCut(payload, pos, objStart);
        return;
      }
      NextCut(payload, pos, objStart, objEnd);
      var obj := payload[objStart..objEnd + 1];
      ghost var later := Cuts(payload[objEnd + 1..], "");
      assert shown + ([obj] + later) == (shown + [obj]) + later;
      shown := shown + [obj];
      pos := objEnd + 1;
    }
    assert payload[pos..] == "";
  }

  // ---------------------------------------------------------------- cutting a printed array

  function WrapAll(bodies: seq<string>): seq<string> {
    if bodies == [] then [] else [Wrap(bodies[0])] + WrapAll(bodies[1..])
  }

  /** The part of a text before its first closing brace. */
  function BeforeBrace(s: string): (r: string)
    ensures r <= s && '}' !in r
    ensures '}' in s ==> |r| < |s| && s[|r|] == '}'
  {
    if s == "" || s[0] == '}' then "" else [s[0]] + BeforeBrace(s[1..])
  }

  lemma SplitAtBrace(body: string, head: string, close: string)
    requires head <= body && |head| < |body| && body[|head|] == '}'
    ensures body + close == head + ("}" + (body[|head| + 1..] + close))
  {
    assert body == head + ([body[|head|]] + body[|head| + 1..]);
  }

  /** An object with a closing brace inside is cut too short. */
  lemma ShortCut(body: string, more: string)
    requires '}' in body
    ensures var cuts := Cuts("{" + (body + ("}" + more)), ""); cuts != [] && |cuts[0]| < |Wrap(body)|
  {
    var head := BeforeBrace(body);
    SplitAtBrace(body, head, "}" + more);
    CutsObject(head, body[|head| + 1..] + ("}" + more));
  }

  lemma NothingLeft()
    ensures Cuts("]", "") == []
  {
    assert "]"[1..] == "";
  }

  lemma {:induction false} MembersCutExactly(bodies: seq<string>)
    requires bodies != []
    ensures Cuts("{" + (bodies[0] + ("}" + More(bodies[1..]))), "") == WrapAll(bodies)
            <==> forall i :: 0 <= i < |bodies| ==> '}' !in bodies[i]
  {
    var b, rest := bodies[0], bodies[1..];
    assert bodies == [b] + rest;
    assert WrapAll(bodies) == [Wrap(b)] + WrapAll(rest);
    if '}' in b {
      ShortCut(b, More(rest));
    } else {
      CutsObject(b, More(rest));
      var later := Cuts(More(rest), "");
      assert ([Wrap(b)] + later)[1..] == later && ([Wrap(b)] + WrapAll(rest))[1..] == WrapAll(rest);
      if rest == [] {
        NothingLeft();
      } else {
        CutsSkip(", ", "{" + (rest[0] + ("}" + More(rest[1..]))));
        MembersCutExactly(rest);
      }
    }
  }

  lemma EmptyArray()
    ensures Shown(ArrayText([])) == []
  {
    NothingLeft();
    assert "[]"[1..] == "]";
  }

  lemma ShownArray(rest: string)
    ensures Shown("[" + rest) == Cuts(rest, "")
  {
    assert ("[" + rest)[0] == '[' && ("[" + rest)[1..] == rest;
  }

  /** The loop yields exactly the objects of the array, in order, exactly when no object holds a closing
      brace inside; opening braces do no harm. */
  lemma ArrayCutExactly(bodies: seq<string>)
    ensures Shown(ArrayText(bodies)) == WrapAll(bodies) <==> forall i :: 0 <= i < |bodies| ==> '}' !in bodies[i]
  {
    if bodies == [] {
      EmptyArray();
    } else {
      ShownArray("{" + (bodies[0] + ("}" + More(bodies[1..]))));
      MembersCutExactly(bodies);
    }
  }
}
