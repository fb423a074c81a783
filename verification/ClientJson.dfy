/** The Windows client's hand-written JSON: `json_escape`, the message builders, and two extractors that
    find a key by plain substring search. Escaping as in section 7 of RFC 8259. */
module ClientJson {
  import opened JsonText
  import opened Collections

  // ---------------------------------------------------------------- escaping and its reading back

  method JsonEscape(s: string) returns (res: string)
    ensures res == Escape(s)
  {
    res := "";
    for i := 0 to |s|
      invariant res + Escape(s[i..]) == Escape(s)
    {
      assert res + Escape(s[i..]) == (res + EscapeChar(s[i])) + Escape(s[i + 1..]) by {
        assert s[i..][1..] == s[i + 1..];
      }
      res := res + EscapeChar(s[i]);
    }
    assert res + "" == res;
  }

  /** The reading loop of `extract_json_string`, from just after an opening quote. */
  function Collect(s: string, escaped: bool): string {
    if s == "" then ""
    else if escaped then [s[0]] + Collect(s[1..], false)
    else if s[0] == '\\' then Collect(s[1..], true)
    else if s[0] == '"' then ""
    else [s[0]] + Collect(s[1..], false)
  }

  /** What is read back in place of a character: the loop drops the backslash and keeps the letter. */
  function ReadBackChar(c: char): char {
    if c == '\U{8}' then 'b' else if c == '\U{c}' then 'f'
    else if c == '\n' then 'n' else if c == '\r' then 'r' else if c == '\t' then 't'
    else c
  }

  function ReadBack(s: string): string {
    if s == "" then "" else [ReadBackChar(s[0])] + ReadBack(s[1..])
  }

  /** The five control characters that have a short escape. */
  predicate HasShortEscape(c: char) {
    c == '\U{8}' || c == '\U{c}' || c == '\n' || c == '\r' || c == '\t'
  }

  /** One escaped character is read as one character. */
  lemma CollectsChar(c: char, later: string)
    ensures Collect(EscapeChar(c) + later, false) == [ReadBackChar(c)] + Collect(later, false)
  {
    var e := EscapeChar(c);
    if |e| == 2 {
      CollectsPair(e[1], later);
      assert e == ['\\', e[1]];
    } else {
      assert (e + later)[1..] == later;
    }
  }

  lemma CollectsPair(c: char, later: string)
    ensures Collect(['\\', c] + later, false) == [c] + Collect(later, false)
  {
    assert (['\\', c] + later)[1..] == [c] + later && ([c] + later)[1..] == later;
  }

  /** A value is read to its own closing quote, whatever follows. */
  lemma {:induction false} CollectsEscaped(v: string, more: string)
    ensures Collect(Escape(v) + ("\"" + more), false) == ReadBack(v)
  {
    var close := "\"" + more;
    if v == "" {
      assert Escape(v) + close == close;
    } else {
      var e, later := EscapeChar(v[0]), Escape(v[1..]) + close;
      CollectsEscaped(v[1..], more);
      Regroup(e, Escape(v[1..]), close);
      CollectsChar(v[0], later);
    }
  }

  /** Escaping and reading back give the same text exactly for texts with none of those five characters,
      so for every printable one. */
  lemma {:induction false} ReadsBackExactly(v: string)
    ensures ReadBack(v) == v <==> forall i :: 0 <= i < |v| ==> !HasShortEscape(v[i])
  {
    if v != "" {
      ReadsBackExactly(v[1..]);
      assert v == [v[0]] + v[1..];
      if ReadBack(v) == v { assert ReadBack(v)[1..] == ReadBack(v[1..]) == v[1..] && ReadBack(v)[0] == v[0]; }
      if i :| 0 <= i < |v[1..]| && HasShortEscape(v[1..][i]) { assert HasShortEscape(v[i + 1]); }
    }
  }

  // ---------------------------------------------------------------- searching

  /** What follows the first occurrence of `pat`, as `find` and `start += search.length()` leave it. */
  function After(s: string, pat: string): Option<string> {
    if pat <= s then Some(s[|pat|..]) else if s == "" then None else After(s[1..], pat)
  }

  /** `std::string::find`: the first position at which `pat` occurs. */
  method Find(s: string, pat: string) returns (pos: Option<nat>)
    ensures pos.Some? ==> pos.value + |pat| <= |s| && After(s, pat) == Some(s[pos.value + |pat|..])
    ensures pos.None? ==> After(s, pat) == None
  {
    var i := 0;
    while i <= |s|
      invariant 0 <= i <= |s| + 1
      invariant i <= |s| ==> After(s, pat) == After(s[i..], pat)
      invariant i == |s| + 1 ==> After(s, pat) == None
    {
      if i + |pat| <= |s| {
        assert s[i..][..|pat|] == s[i..i + |pat|] && s[i..][|pat|..] == s[i + |pat|..];
        if s[i..i + |pat|] == pat { return Some(i); }
      }
      if i < |s| { assert s[i..][1..] == s[i + 1..]; }
      i := i + 1;
    }
    pos := None;
  }

  function SearchKey(key: string): string {
    "\"" + key + "\":"
  }

  predicate IsBlank(c: char) {
    c == ' ' || c == '\t'
  }

  function SkipBlanks(s: string): string {
    if s != "" && IsBlank(s[0]) then SkipBlanks(s[1..]) else s
  }

  function ReadText(s: string): string {
    var t := SkipBlanks(s);
    if t == "" || t[0] != '"' then "" else Collect(t[1..], false)
  }

  /** `extract_json_string`. */
  function StringOf(json: string, key: string): string {
    match After(json, SearchKey(key))
    case None => ""
    case Some(rest) => ReadText(rest)
  }

  method SkipFrom(json: string, start: nat) returns (i: nat)
    requires start <= |json|
    ensures start <= i <= |json| && json[i..] == SkipBlanks(json[start..])
    ensures i < |json| ==> !IsBlank(json[i])
  {
    i := start;
    while i < |json| && (json[i] == ' ' || json[i] == '\t')
      invariant start <= i <= |json| && SkipBlanks(json[i..]) == SkipBlanks(json[start..])
    {
      assert json[i..][1..] == json[i + 1..];
      i := i + 1;
    }
  }

  /** The reading loop, from just after the opening quote. */
  method CollectFrom(json: string, start: nat) returns (res: string)
    requires start <= |json|
    ensures res == Collect(json[start..], false)
  {
    res := "";
    var escaped := false;
    for i := start to |json|
      invariant res + Collect(json[i..], escaped) == Collect(json[start..], false)
    {
      var c, later := json[i], Collect(json[i + 1..], false);
      assert json[i..][1..] == json[i + 1..];
      assert res + ([c] + later) == (res + [c]) + later;
      if escaped {
        res := res + [c];
        escaped := false;
      } else if c == '\\' {
        escaped := true;
      } else if c == '"' {
        return;
      } else {
        res := res + [c];
      }
    }
  }

  method ExtractJsonString(json: string, key: string) returns (res: string)
    ensures res == StringOf(json, key)
  {
    var search := SearchKey(key);
    var pos := Find(json, search);
    if pos.None? { return ""; }
    var start := SkipFrom(json, pos.value + |search|);
    if start >= |json| || json[start] != '"' { return ""; }
    assert json[start..][1..] == json[start + 1..];
    res := CollectFrom(json, start + 1);
  }

  // ---------------------------------------------------------------- integers

  predicate IsDigit(c: char) { '0' <= c <= '9' }

  predicate IsSpanChar(c: char) { IsDigit(c) || c == '-' }

  function Span(s: string): string {
    if s != "" && IsSpanChar(s[0]) then [s[0]] + Span(s[1..]) else ""
  }

  function DigitsOf(s: string): string {
    if s != "" && IsDigit(s[0]) then [s[0]] + DigitsOf(s[1..]) else ""
  }

  function Decimal(s: string, acc: nat): nat {
    if s == "" then acc else Decimal(s[1..], acc * 10 + (s[0] as int - '0' as int) % 10)
  }

  const INT_LIMIT: nat := 0x8000_0000

  /** `std::stoi` on text of digits and minus signs: None when there is no digit after an optional sign,
      or the number does not fit `int`; the caller does not catch either exception. */
  function Stoi(s: string): Option<int> {
    var negative := s != "" && s[0] == '-';
    var digits := DigitsOf(if negative then s[1..] else s);
    if digits == "" then None
    else
      var n := Decimal(digits, 0);
      var v: int := if negative then -(n as int) else n;
      if -(INT_LIMIT as int) <= v < INT_LIMIT then Some(v) else None
  }

  function ReadInt(s: string): Option<int> {
    var span := Span(SkipBlanks(s));
    if span == "" then Some(0) else Stoi(span)
  }

  /** `extract_json_int`; None is an exception. */
  function IntOf(json: string, key: string): Option<int> {
    match After(json, SearchKey(key))
    case None => Some(0)
    case Some(rest) => ReadInt(rest)
  }

  lemma SpanStep(s: string, i: nat)
    requires i < |s| && IsSpanChar(s[i])
    ensures Span(s[i..]) == [s[i]] + Span(s[i + 1..])
  {
    assert s[i..][1..] == s[i + 1..];
  }

  method SpanFrom(json: string, start: nat) returns (end: nat)
    requires start <= |json|
    ensures start <= end <= |json| && json[start..end] == Span(json[start..])
  {
    end := start;
    ghost var all := Span(json[start..]);
    while end < |json| && (('0' <= json[end] <= '9') || json[end] == '-')
      invariant start <= end <= |json|
      invariant json[start..end] + Span(json[end..]) == all
    {
      SpanStep(json, end);
      Regroup(json[start..end], [json[end]], Span(json[end + 1..]));
      assert json[start..end] + [json[end]] == json[start..end + 1];
      end := end + 1;
    }
  }

  method ExtractJsonInt(json: string, key: string) returns (n: Option<int>)
    ensures n == IntOf(json, key)
  {
    var search := SearchKey(key);
    var pos := Find(json, search);
    if pos.None? { return Some(0); }
    var start := SkipFrom(json, pos.value + |search|);
    var end := SpanFrom(json, start);
    if start == end { return Some(0); }
    n := Stoi(json[start..end]);
  }

  // ---------------------------------------------------------------- objects

  predicate PlainKey(k: string) {
    '"' !in k && '\\' !in k
  }

  predicate StartsWithColon(k: string) {
    k != "" && k[0] == ':'
  }

  predicate Blanks(gap: string) {
    forall i :: 0 <= i < |gap| ==> IsBlank(gap[i])
  }

  predicate WellFormed(o: Object) {
    && (forall i :: 0 <= i < |o| ==> PlainKey(o[i].key))
    && (forall i, j :: 0 <= i < j < |o| ==> o[i].key != o[j].key)
  }

  function Lookup(o: Object, k: string): Option<Value> {
    if o == [] then None else if o[0].key == k then Some(o[0].value) else Lookup(o[1..], k)
  }

  /** A chat request of `main`. */
  function ChatMessage(text: string, now: int): Object {
    [Member("type", Text("message")), Member("text", Text(text)), Member("timestamp", Int(now))]
  }
}
