/** Escaped text never forges a key: what the substring search of the Windows client finds in a printed
    object, for all objects and all search keys, and exactly which keys it can be trusted with. */
module JsonExtraction {
  import opened ClientJson
  import opened JsonText
  import opened Collections

  // ---------------------------------------------------------------- where a search key can match

  lemma {:induction false} AfterSkips(x: string, y: string, pat: string)
    requires forall i :: 0 <= i < |x| ==> !(pat <= (x + y)[i..])
    ensures After(x + y, pat) == After(y, pat)
  {
    if x == "" {
      assert x + y == y;
    } else {
      assert (x + y)[0..] == x + y && (x + y)[1..] == x[1..] + y;
      forall i | 0 <= i < |x[1..]| ensures !(pat <= (x[1..] + y)[i..]) {
        assert (x[1..] + y)[i..] == (x + y)[i + 1..];
      }
      AfterSkips(x[1..], y, pat);
    }
  }

  /** A match runs from a quote to the next quote, and on to a colon. */
  lemma MatchShape(t: string, k: string)
    ensures SearchKey(k) <= t <==>
              |t| >= |k| + 3 && t[0] == '"' && t[1..1 + |k|] == k && t[1 + |k|] == '"' && t[2 + |k|] == ':'
  {
    var p := SearchKey(k);
    assert p[0] == '"' && p[1..1 + |k|] == k && p[1 + |k|] == '"' && p[2 + |k|] == ':';
    if |t| >= |k| + 3 {
      var u := t[..|p|];
      assert u == [u[0]] + u[1..1 + |k|] + [u[1 + |k|], u[2 + |k|]];
      assert u[1..1 + |k|] == t[1..1 + |k|];
    }
  }

  lemma NoQuoteNoMatch(t: string, k: string)
    requires t == "" || t[0] != '"'
    ensures !(SearchKey(k) <= t)
  {
    MatchShape(t, k);
  }

  /** The next quote after a matching one ends the key. */
  lemma NextQuote(t: string, k: string, q: nat)
    requires PlainKey(k) && 1 <= q < |t| && t[q] == '"' && '"' !in t[1..q]
    ensures SearchKey(k) <= t ==> k == t[1..q] && q + 1 < |t| && t[q + 1] == ':'
  {
    MatchShape(t, k);
    if 1 + |k| < q {
      assert t[1..q][|k|] == t[1 + |k|];
    } else if q < 1 + |k| <= |t| {
      assert t[1..1 + |k|][q - 1] == t[q];
    }
  }

  lemma QuoteFreeSkips(x: string, y: string, k: string)
    requires '"' !in x
    ensures After(x + y, SearchKey(k)) == After(y, SearchKey(k))
  {
    forall i | 0 <= i < |x| ensures !(SearchKey(k) <= (x + y)[i..]) {
      assert (x + y)[i..][0] == x[i];
      NoQuoteNoMatch((x + y)[i..], k);
    }
    AfterSkips(x, y, SearchKey(k));
  }

  lemma QuoteFreeHasNone(x: string, k: string)
    requires '"' !in x
    ensures After(x, SearchKey(k)) == None
  {
    QuoteFreeSkips(x, "", k);
    assert x + "" == x;
  }

  lemma OneSkips(x: string, y: string, k: string)
    requires |x| == 1 && !(SearchKey(k) <= x + y)
    ensures After(x + y, SearchKey(k)) == After(y, SearchKey(k))
  {
    assert (x + y)[0..] == x + y;
    AfterSkips(x, y, SearchKey(k));
  }

  // ---------------------------------------------------------------- values

  /** Every quote in escaped text follows a backslash. */
  lemma {:induction false} QuotesAreEscaped(v: string)
    ensures forall i :: 0 <= i < |Escape(v)| && Escape(v)[i] == '"' ==> i > 0 && Escape(v)[i - 1] == '\\'
  {
    if v != "" {
      QuotesAreEscaped(v[1..]);
      var e, later := EscapeChar(v[0]), Escape(v[1..]);
      forall i | 0 <= i < |Escape(v)| && Escape(v)[i] == '"' ensures i > 0 && Escape(v)[i - 1] == '\\' {
        if i >= |e| {
          assert Escape(v)[i] == later[i - |e|];
          assert Escape(v)[i - 1] == later[i - |e| - 1];
        }
      }
    }
  }

  /** No match starts inside an escaped value or at its opening quote. */
  lemma NoMatchInValue(e: string, i: nat, more: string, k: string)
    requires i < |e| && PlainKey(k)
    requires forall j :: i < j < |e| && e[j] == '"' ==> e[j - 1] == '\\'
    requires more == "" || more[0] != ':'
    ensures !(SearchKey(k) <= (e + ("\"" + more))[i..])
  {
    var all := e + ("\"" + more);
    var t := all[i..];
    var close := i + 1 + |k|;
    MatchShape(t, k);
    assert all[|e|] == '"' && t[|e| - i] == '"';
    if close + 1 < |all| {
      assert t[1 + |k|] == all[close] && t[2 + |k|] == all[close + 1];
      assert |k| > 0 ==> t[1..1 + |k|][|k| - 1] == t[|k|] == all[close - 1];
      if close > |e| { assert t[1..1 + |k|][|e| - i - 1] == t[|e| - i]; }
    }
  }

  /** Every quote after the opening one follows a backslash. */
  lemma QuotesAfterOpening(v: string, j: nat)
    requires 0 < j < |"\"" + Escape(v)| && ("\"" + Escape(v))[j] == '"'
    ensures ("\"" + Escape(v))[j - 1] == '\\'
  {
    QuotesAreEscaped(v);
    assert ("\"" + Escape(v))[j] == Escape(v)[j - 1];
    assert j > 1 ==> ("\"" + Escape(v))[j - 1] == Escape(v)[j - 2];
  }

  lemma NoMatchInText(v: string, i: nat, more: string, k: string)
    requires PlainKey(k) && (more == "" || more[0] != ':') && i < |"\"" + Escape(v)|
    ensures !(SearchKey(k) <= (("\"" + Escape(v)) + ("\"" + more))[i..])
  {
    var e := "\"" + Escape(v);
    forall j | i < j < |e| && e[j] == '"' ensures e[j - 1] == '\\' { QuotesAfterOpening(v, j); }
    NoMatchInValue(e, i, more, k);
  }

  lemma TextSkips(v: string, more: string, k: string)
    requires PlainKey(k) && (more == "" || more[0] != ':')
    ensures After("\"" + (Escape(v) + ("\"" + more)), SearchKey(k)) == After("\"" + more, SearchKey(k))
  {
    var e, close := "\"" + Escape(v), "\"" + more;
    forall i | 0 <= i < |e| ensures !(SearchKey(k) <= (e + close)[i..]) { NoMatchInText(v, i, more, k); }
    AfterSkips(e, close, SearchKey(k));
    Regroup("\"", Escape(v), close);
  }

  lemma {:induction false} DigitsAreDigits(n: nat)
    ensures Digits(n) != "" && forall i :: 0 <= i < |Digits(n)| ==> IsDigit(Digits(n)[i])
  {
    if n >= 10 { DigitsAreDigits(n / 10); }
  }

  lemma NumberChars(n: int)
    ensures Number(n) != "" && forall i :: 0 <= i < |Number(n)| ==> IsSpanChar(Number(n)[i])
  {
    DigitsAreDigits(if n < 0 then -n else n);
  }

  // ---------------------------------------------------------------- what follows a value

  predicate ColonFree(o: Object) {
    forall i :: 0 <= i < |o| ==> !StartsWithColon(o[i].key)
  }

  lemma TailShape(o: Object, gap: string)
    ensures var r := Tail(o, gap);
            && |r| > 0 && r[0] != ':'
            && (o == [] ==> r == "}")
            && (o != [] ==> |r| > 3 && r[0] == ',' && r[1] == ' ' && r[2] == '"'
                            && r[3] == if o[0].key == "" then '"' else o[0].key[0])
  {
    if o != [] {
      var key, rest := o[0].key, "\"" + (":" + gap + ValueThen(o[0].value, Tail(o[1..], gap)));
      assert Tail(o, gap) == ", " + ("\"" + (key + rest));
      assert Tail(o, gap)[3] == (key + rest)[0];
    }
  }

  /** No match starts in `x` when the next quote is followed by something else than a colon. */
  lemma NoMatchToNextKey(x: string, r: string, k: string)
    requires PlainKey(k) && x != "" && '"' !in x[1..]
    requires |r| > 3 && r[0] != '"' && r[1] != '"' && r[2] == '"' && r[3] != ':'
    ensures !(SearchKey(k) <= x + r)
  {
    var t, q := x + r, |x| + 2;
    assert t[q] == r[2] && t[q + 1] == r[3];
    forall c | c in t[1..q] ensures c != '"' {
      var i :| 1 <= i < q && t[i] == c;
      if i < |x| { assert x[1..][i - 1] == c; } else { assert r[i - |x|] == c; }
    }
    NextQuote(t, k, q);
  }

  lemma NoMatchToEnd(x: string, k: string)
    requires x != "" && '"' !in x[1..]
    ensures !(SearchKey(k) <= x + "}")
  {
    var t := x + "}";
    MatchShape(t, k);
    if 1 + |k| < |x| { assert t[1 + |k|] == x[1..][|k|]; }
  }

  /** No match starts at a quote with no other quote up to the end of the value: the next quote, if any,
      opens a key, and no key starts with a colon. */
  lemma NoMatchIntoTail(x: string, o: Object, gap: string, k: string)
    requires PlainKey(k) && ColonFree(o) && x != "" && '"' !in x[1..]
    ensures !(SearchKey(k) <= x + Tail(o, gap))
  {
    TailShape(o, gap);
    if o == [] { NoMatchToEnd(x, k); } else { NoMatchToNextKey(x, Tail(o, gap), k); }
  }

  // ---------------------------------------------------------------- one member

  lemma OpenOfKey(m: string, rest: string, k: string)
    requires PlainKey(k) && PlainKey(m) && k != m
    ensures After("\"" + (m + ("\"" + rest)), SearchKey(k)) == After("\"" + rest, SearchKey(k))
  {
    var close := "\"" + rest;
    var t := "\"" + (m + close);
    assert t[1..|m| + 1] == m && t[|m| + 1] == '"';
    NextQuote(t, k, |m| + 1);
    OneSkips("\"", m + close, k);
    QuoteFreeSkips(m, close, k);
  }

  lemma CloseOfTextKey(v: string, more: string, gap: string, k: string)
    requires PlainKey(k) && Blanks(gap) && k != ":" + gap
    ensures !(SearchKey(k) <= "\"" + (":" + gap + ValueThen(Text(v), more)))
  {
    var t, q := "\"" + (":" + gap + ValueThen(Text(v), more)), 2 + |gap|;
    assert t[1..q] == ":" + gap && t[q] == '"';
    NextQuote(t, k, q);
  }

  lemma CloseOfIntKey(n: int, o: Object, gap: string, k: string)
    requires PlainKey(k) && Blanks(gap) && ColonFree(o)
    ensures !(SearchKey(k) <= "\"" + (":" + gap + (Number(n) + Tail(o, gap))))
  {
    NumberChars(n);
    var digits, r := ":" + gap + Number(n), Tail(o, gap);
    var x := "\"" + digits;
    assert x[1..] == digits && '"' !in digits;
    NoMatchIntoTail(x, o, gap, k);
    Regroup("\"", digits, r);
    Regroup(":" + gap, Number(n), r);
  }

  /** The closing quote of a key starts no match, unless the search key is the colon and the gap. */
  lemma CloseOfKey(v: Value, o: Object, gap: string, k: string)
    requires PlainKey(k) && Blanks(gap) && ColonFree(o) && k != ":" + gap
    ensures !(SearchKey(k) <= "\"" + (":" + gap + ValueThen(v, Tail(o, gap))))
  {
    match v
    case Int(n) => CloseOfIntKey(n, o, gap, k);
    case Text(s) => CloseOfTextKey(s, Tail(o, gap), gap, k);
  }

  lemma ValueSkips(v: Value, o: Object, gap: string, k: string)
    requires PlainKey(k) && ColonFree(o)
    ensures After(ValueThen(v, Tail(o, gap)), SearchKey(k)) == After(Tail(o, gap), SearchKey(k))
  {
    var r := Tail(o, gap);
    TailShape(o, gap);
    match v
    case Int(n) =>
      NumberChars(n);
      QuoteFreeSkips(Number(n), r, k);
    case Text(s) =>
      TextSkips(s, r, k);
      NoMatchIntoTail("\"", o, gap, k);
      OneSkips("\"", r, k);
  }

  /** The search passes over a member with another key. */
  lemma MemberSkips(m: Member, o: Object, gap: string, k: string)
    requires PlainKey(k) && PlainKey(m.key) && Blanks(gap) && ColonFree(o)
    requires k != m.key && k != ":" + gap
    ensures After(MemberThen(m, gap, Tail(o, gap)), SearchKey(k)) == After(Tail(o, gap), SearchKey(k))
  {
    var fromValue := ValueThen(m.value, Tail(o, gap));
    OpenOfKey(m.key, ":" + gap + fromValue, k);
    CloseOfKey(m.value, o, gap, k);
    OneSkips("\"", ":" + gap + fromValue, k);
    QuoteFreeSkips(":" + gap, fromValue, k);
    ValueSkips(m.value, o, gap, k);
  }

  /** The search stops at a member with this key. */
  lemma MemberFound(m: Member, gap: string, r: string)
    ensures After(MemberThen(m, gap, r), SearchKey(m.key)) == Some(gap + ValueThen(m.value, r))
  {
    var t, p := MemberThen(m, gap, r), SearchKey(m.key);
    assert t == p + (gap + ValueThen(m.value, r));
  }

  // ---------------------------------------------------------------- whole objects

  /** The object from the member with this key on. */
  function From(o: Object, k: string): Object {
    if o == [] || o[0].key == k then o else From(o[1..], k)
  }

  function Found(o: Object, gap: string, k: string): Option<string> {
    var f := From(o, k);
    if f == [] then None else Some(gap + ValueThen(f[0].value, Tail(f[1..], gap)))
  }

  lemma {:induction false} FoundInMembers(o: Object, gap: string, k: string)
    requires o != [] && WellFormed(o) && ColonFree(o) && Blanks(gap) && PlainKey(k) && k != ":" + gap
    ensures After(MemberThen(o[0], gap, Tail(o[1..], gap)), SearchKey(k)) == Found(o, gap, k)
  {
    if o[0].key == k {
      MemberFound(o[0], gap, Tail(o[1..], gap));
    } else {
      MemberSkips(o[0], o[1..], gap, k);
      if o[1..] == [] {
        assert From(o, k) == From(o[1..], k) == [];
        QuoteFreeHasNone("}", k);
      } else {
        QuoteFreeSkips(", ", MemberThen(o[1], gap, Tail(o[1..][1..], gap)), k);
        FoundInMembers(o[1..], gap, k);
      }
    }
  }

  lemma {:induction false} FoundInObject(o: Object, gap: string, k: string)
    requires WellFormed(o) && ColonFree(o) && Blanks(gap) && PlainKey(k) && k != ":" + gap
    ensures After(Print(o, gap), SearchKey(k)) == Found(o, gap, k)
  {
    if o == [] {
      QuoteFreeHasNone("{}", k);
    } else {
      QuoteFreeSkips("{", MemberThen(o[0], gap, Tail(o[1..], gap)), k);
      FoundInMembers(o, gap, k);
    }
  }

  lemma {:induction false} FromIsLookup(o: Object, k: string)
    ensures Lookup(o, k) == if From(o, k) == [] then None else Some(From(o, k)[0].value)
  {
    if o != [] { FromIsLookup(o[1..], k); }
  }

  lemma {:induction false} SkipsGap(gap: string, s: string)
    requires Blanks(gap) && (s == "" || !IsBlank(s[0]))
    ensures SkipBlanks(gap + s) == s
  {
    if gap == "" {
      assert gap + s == s;
    } else {
      assert (gap + s)[1..] == gap[1..] + s;
      SkipsGap(gap[1..], s);
    }
  }

  /** What the client should read under a key: the text as it reads back, nothing for an absent key. */
  function Expected(o: Object, k: string): string {
    match Lookup(o, k)
    case Some(Text(s)) => ReadBack(s)
    case _ => ""
  }

  lemma ReadsValue(v: Value, r: string, gap: string)
    requires Blanks(gap)
    ensures ReadText(gap + ValueThen(v, r)) == match v case Text(s) => ReadBack(s) case Int(_) => ""
  {
    match v
    case Int(n) =>
      NumberChars(n);
      SkipsGap(gap, ValueThen(v, r));
    case Text(s) =>
      SkipsGap(gap, ValueThen(v, r));
      CollectsEscaped(s, r);
  }

  /** Every string value is read under its own key and nothing under any other, whatever the values hold. */
  lemma NoForgedKey(o: Object, gap: string, k: string)
    requires WellFormed(o) && ColonFree(o) && Blanks(gap) && PlainKey(k) && k != ":" + gap
    ensures StringOf(Print(o, gap), k) == Expected(o, k)
  {
    FoundInObject(o, gap, k);
    FromIsLookup(o, k);
    var f := From(o, k);
    if f != [] { ReadsValue(f[0].value, Tail(f[1..], gap), gap); }
  }

  // ---------------------------------------------------------------- integers

  function ExpectedInt(o: Object, k: string): Option<int> {
    match Lookup(o, k)
    case Some(Int(n)) => if -0x8000_0000 <= n < 0x8000_0000 then Some(n) else None
    case _ => Some(0)
  }

  lemma {:induction false} DecimalAppend(s: string, d: char, acc: nat)
    requires IsDigit(d)
    ensures Decimal(s + [d], acc) == Decimal(s, acc) * 10 + (d as int - '0' as int)
  {
    if s == "" {
      assert [d][1..] == "";
    } else {
      assert (s + [d])[1..] == s[1..] + [d];
      DecimalAppend(s[1..], d, acc * 10 + (s[0] as int - '0' as int) % 10);
    }
  }

  lemma {:induction false} DigitsValue(n: nat)
    ensures Decimal(Digits(n), 0) == n
  {
    if n >= 10 {
      DigitsValue(n / 10);
      DecimalAppend(Digits(n / 10), ('0' as int + n % 10) as char, 0);
    } else {
      assert Digits(n)[1..] == "";
    }
  }

  lemma {:induction false} DigitsOfDigits(s: string)
    requires forall i :: 0 <= i < |s| ==> IsDigit(s[i])
    ensures DigitsOf(s) == s
  {
    if s != "" { DigitsOfDigits(s[1..]); }
  }

  lemma StoiOfNumber(n: int)
    ensures Stoi(Number(n)) == if -(INT_LIMIT as int) <= n < INT_LIMIT then Some(n) else None
  {
    var m: nat := if n < 0 then -n else n;
    DigitsAreDigits(m);
    DigitsOfDigits(Digits(m));
    DigitsValue(m);
    assert n < 0 ==> Number(n)[1..] == Digits(m);
  }

  lemma {:induction false} SpanStops(s: string, r: string)
    requires forall i :: 0 <= i < |s| ==> IsSpanChar(s[i])
    requires r == "" || !IsSpanChar(r[0])
    ensures Span(s + r) == s
  {
    if s == "" {
      assert s + r == r;
    } else {
      assert (s + r)[1..] == s[1..] + r;
      SpanStops(s[1..], r);
    }
  }

  lemma ReadsInt(v: Value, o: Object, gap: string)
    requires Blanks(gap)
    ensures ReadInt(gap + ValueThen(v, Tail(o, gap)))
            == match v case Int(n) => Stoi(Number(n)) case Text(_) => Some(0)
  {
    var r := Tail(o, gap);
    TailShape(o, gap);
    match v
    case Int(n) =>
      NumberChars(n);
      SkipsGap(gap, ValueThen(v, r));
      SpanStops(Number(n), r);
    case Text(_) =>
      SkipsGap(gap, ValueThen(v, r));
  }

  /** An integer is read under its own key when it fits `int`; otherwise `stoi` throws. No text forges one. */
  lemma NoForgedInt(o: Object, gap: string, k: string)
    requires WellFormed(o) && ColonFree(o) && Blanks(gap) && PlainKey(k) && k != ":" + gap
    ensures IntOf(Print(o, gap), k) == ExpectedInt(o, k)
  {
    FoundInObject(o, gap, k);
    FromIsLookup(o, k);
    var f := From(o, k);
    if f != [] {
      ReadsInt(f[0].value, f[1..], gap);
      if f[0].value.Int? { StoiOfNumber(f[0].value.n); }
    }
  }

  // ---------------------------------------------------------------- exactly which keys

  predicate ReadsRight(o: Object, gap: string, k: string) {
    StringOf(Print(o, gap), k) == Expected(o, k)
  }

  lemma MatchHere(pat: string, rest: string)
    ensures After(pat + rest, pat) == Some(rest)
  {
    assert (pat + rest)[..|pat|] == pat && (pat + rest)[|pat|..] == rest;
  }

  /** Up to the closing quote of its key, a member with another key starts no match. */
  lemma UpToCloseOfKey(m: Member, gap: string, more: string, k: string)
    requires PlainKey(k) && PlainKey(m.key) && k != m.key
    ensures After("{" + MemberThen(m, gap, more), SearchKey(k))
            == After("\"" + (":" + gap + ValueThen(m.value, more)), SearchKey(k))
  {
    QuoteFreeSkips("{", MemberThen(m, gap, more), k);
    OpenOfKey(m.key, ":" + gap + ValueThen(m.value, more), k);
  }

  lemma LookupOnly(m: Member, k: string)
    ensures Lookup([m], k) == if m.key == k then Some(m.value) else None
  {
    assert [m][1..] == [];
  }

  lemma GapText(gap: string, k: string)
    requires k == ":" + gap
    ensures "\"" + (":" + gap + ValueThen(Text(":"), "}")) == SearchKey(k) + ("\"" + "}")
  {
    assert Escape(":") == ":" + "" == ":";
  }

  lemma ReadsBrace()
    ensures ReadText("\"" + "}") == "}"
  {
    var rest := "\"" + "}";
    assert rest[1..] == "}" && "}"[1..] == "";
  }

  /** The member `"a":":"` is taken for the key made of the colon and the gap. */
  lemma GapKeyIsForged(gap: string)
    requires Blanks(gap)
    ensures WellFormed([Member("a", Text(":"))]) && ColonFree([Member("a", Text(":"))])
    ensures !ReadsRight([Member("a", Text(":"))], gap, ":" + gap)
  {
    var k, m := ":" + gap, Member("a", Text(":"));
    assert k[0] == ':' && k != "a";
    LookupOnly(m, k);
    assert [m][1..] == [];
    UpToCloseOfKey(m, gap, "}", k);
    GapText(gap, k);
    MatchHere(SearchKey(k), "\"" + "}");
    ReadsBrace();
  }

  /** A search key reads every object without colon keys correctly exactly when it is not the colon
      followed by what the writer puts after its colons. */
  lemma SearchKeyIsSafeExactly(gap: string, k: string)
    requires Blanks(gap) && PlainKey(k)
    ensures (forall o :: WellFormed(o) && ColonFree(o) ==> ReadsRight(o, gap, k)) <==> k != ":" + gap
  {
    if k == ":" + gap {
      GapKeyIsForged(gap);
    } else {
      forall o | WellFormed(o) && ColonFree(o) ensures ReadsRight(o, gap, k) { NoForgedKey(o, gap, k); }
    }
  }

  predicate OthersColonFree(o: Object, k: string) {
    forall i :: 0 <= i < |o| && o[i].key != k ==> !StartsWithColon(o[i].key)
  }

  lemma ReadsColon(more: string)
    ensures ReadText("\":" + more) != "" && ReadText("\":" + more)[0] == ':'
  {
    var t, u := "\":" + more, ":" + more;
    assert t[0] == '"' && t[1..] == u;
    assert SkipBlanks(t) == t && u[0] == ':';
    assert Collect(u, false) == [u[0]] + Collect(u[1..], false);
  }

  /** Text without quotes, then a quote and a colon, is read as nothing or as text starting with a colon. */
  lemma {:induction false} ReadsFromColonKey(s: string, more: string)
    requires PlainKey(s)
    ensures var r := ReadText(s + ("\":" + more)); r == "" || r[0] == ':'
  {
    var t := s + ("\":" + more);
    if s == "" {
      assert t == "\":" + more;
      ReadsColon(more);
    } else if IsBlank(s[0]) {
      assert t[1..] == s[1..] + ("\":" + more);
      ReadsFromColonKey(s[1..], more);
    } else {
      assert t[0] == s[0];
    }
  }

  /** The closing quote of a text value is the next place where a match can start. */
  lemma UpToCloseOfText(key: string, v: string, gap: string, more: string, k: string)
    requires PlainKey(k) && PlainKey(key) && Blanks(gap) && k != key && k != ":" + gap
    requires more != "" && more[0] != ':'
    ensures After("{" + MemberThen(Member(key, Text(v)), gap, more), SearchKey(k)) == After("\"" + more, SearchKey(k))
  {
    var value := ValueThen(Text(v), more);
    UpToCloseOfKey(Member(key, Text(v)), gap, more, k);
    CloseOfTextKey(v, more, gap, k);
    OneSkips("\"", ":" + gap + value, k);
    QuoteFreeSkips(":" + gap, value, k);
    TextSkips(v, more, k);
  }

  lemma GapKeyIsNot(gap: string, k: string)
    requires k == "" || k[0] != ':'
    ensures k != ":" + gap
  {
    assert (":" + gap)[0] == ':';
  }

  const COMMA_KEY: string := ", "

  /** An object with a key `k` between two harmless ones. */
  function Between(k: string): Object {
    [Member("a", Text("v")), Member(k, Text("w")), Member(COMMA_KEY, Text("z"))]
  }

  /** After a closing quote, a separator and a key that starts with a colon read as the key COMMA_KEY. */
  lemma SeparatorForges(k: string, x: string)
    requires StartsWithColon(k)
    ensures After("\"" + (", " + ("\"" + (k + x))), SearchKey(COMMA_KEY)) == Some(k[1..] + x)
  {
    assert k == ":" + k[1..];
    assert "\"" + (", " + ("\"" + (k + x))) == SearchKey(COMMA_KEY) + (k[1..] + x);
    MatchHere(SearchKey(COMMA_KEY), k[1..] + x);
  }

  lemma BetweenReads(gap: string, k: string)
    requires Blanks(gap) && PlainKey(k) && StartsWithColon(k)
    ensures var r := StringOf(Print(Between(k), gap), COMMA_KEY); r == "" || r[0] == ':'
  {
    var o := Between(k);
    var later := ValueThen(Text("w"), Tail(o[1..][1..], gap));
    var x := "\"" + (":" + gap + later);
    assert x == "\":" + (gap + later);
    var tail := ", " + ("\"" + (k + x));
    assert Tail(o[1..], gap) == tail && tail[0] == ',';
    GapKeyIsNot(gap, COMMA_KEY);
    UpToCloseOfText("a", "v", gap, tail, COMMA_KEY);
    SeparatorForges(k, x);
    ReadsFromColonKey(k[1..], gap + later);
  }

  /** With a key that starts with a colon, the quote that closes the value before it is taken for the
      start of the key of a comma and a space. */
  lemma ColonKeyForges(gap: string, k: string)
    requires Blanks(gap) && PlainKey(k) && StartsWithColon(k)
    ensures WellFormed(Between(k)) && OthersColonFree(Between(k), k) && !ReadsRight(Between(k), gap, COMMA_KEY)
  {
    var o := Between(k);
    BetweenReads(gap, k);
    assert o[1..] == [o[1], o[2]] && o[1..][1..] == [o[2]];
    LookupOnly(o[2], COMMA_KEY);
    assert Lookup(o, COMMA_KEY) == Lookup(o[1..], COMMA_KEY) == Lookup([o[2]], COMMA_KEY);
    assert ReadBack("z") == "z" + "" == "z";
  }

  /** A key may occur in objects without spoiling any reading exactly when it does not start with a colon. */
  lemma ObjectKeyIsSafeExactly(gap: string, k: string)
    requires Blanks(gap) && PlainKey(k)
    ensures (forall o, q :: WellFormed(o) && OthersColonFree(o, k) && PlainKey(q) && q != ":" + gap
                            ==> ReadsRight(o, gap, q))
            <==> !StartsWithColon(k)
  {
    if StartsWithColon(k) {
      ColonKeyForges(gap, k);
      GapKeyIsNot(gap, COMMA_KEY);
    } else {
      forall o, q | WellFormed(o) && OthersColonFree(o, k) && PlainKey(q) && q != ":" + gap
        ensures ReadsRight(o, gap, q)
      {
        NoForgedKey(o, gap, q);
      }
    }
  }
}
