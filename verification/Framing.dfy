/** The reference meaning of the wire format: a recursive parser of a whole byte stream and the encoder,
    with the two laws everything else rests on. A parse may be cut anywhere, and encoding round-trips. */
module Framing {
  import opened HexHeader
  import opened Collections

  type Frame = seq<Byte>

  const MAX_FRAME_SIZE: nat := 16 * 1024

  /** Complete frames, the unconsumed tail, and whether the tail starts with a header that is refused. */
  datatype Parsed = Parsed(frames: seq<Frame>, rest: seq<Byte>, bad: bool)

  /** What the bytes at the front of the buffer call for. */
  datatype Head = More | Refused | Blank | Full(len: nat)

  function HeadOf(b: seq<Byte>): (h: Head)
    ensures h.Full? ==> 1 <= h.len <= MAX_FRAME_SIZE && 4 + h.len <= |b|
    ensures h.Blank? ==> 4 <= |b|
  {
    if |b| < 4 then More
    else
      match ReadHeader(b[..4])
      case None => Refused
      case Some(len) =>
        if len > MAX_FRAME_SIZE then Refused
        else if len == 0 then Blank
        else if |b| < 4 + len then More
        else Full(len)
  }

  function Parse(b: seq<Byte>): Parsed {
    match HeadOf(b)
    case More => Parsed([], b, false)
    case Refused => Parsed([], b, true)
    case Blank => Parse(b[4..])
    case Full(len) =>
      var p := Parse(b[4 + len..]);
      Parsed([b[4..4 + len]] + p.frames, p.rest, p.bad)
  }

  /** What parsing `b` after `p` was parsed from the bytes before it adds up to. */
  function Resume(p: Parsed, b: seq<Byte>): Parsed {
    if p.bad then Parsed(p.frames, p.rest + b, true)
    else
      var q := Parse(p.rest + b);
      Parsed(p.frames + q.frames, q.rest, q.bad)
  }

  lemma HeadIsDecided(a: seq<Byte>, b: seq<Byte>)
    requires !HeadOf(a).More?
    ensures HeadOf(a + b) == HeadOf(a)
  {
    assert (a + b)[..4] == a[..4];
  }

  lemma ConsResume(f: Frame, p: Parsed, b: seq<Byte>)
    ensures var q := Resume(p, b);
            Resume(Parsed([f] + p.frames, p.rest, p.bad), b) == Parsed([f] + q.frames, q.rest, q.bad)
  {
    if !p.bad {
      var more := Parse(p.rest + b).frames;
      assert ([f] + p.frames) + more == [f] + (p.frames + more);
    }
  }

  /** How many bytes the first header and its frame take. */
  function TakenBy(h: Head): nat
    requires h.Blank? || h.Full?
  {
    if h.Full? then 4 + h.len else 4
  }

  function WithHead(h: Head, f: Frame, p: Parsed): Parsed {
    if h.Full? then Parsed([f] + p.frames, p.rest, p.bad) else p
  }

  lemma ParseRest(b: seq<Byte>, h: Head, rest: seq<Byte>, p: Parsed)
    requires h == HeadOf(b) && (h.Blank? || h.Full?) && rest == b[TakenBy(h)..] && Parse(rest) == p
    ensures Parse(b) == WithHead(h, b[4..TakenBy(h)], p)
  {
  }

  lemma ResumeWithHead(h: Head, f: Frame, p: Parsed, b: seq<Byte>)
    ensures Resume(WithHead(h, f, p), b) == WithHead(h, f, Resume(p, b))
  {
    ConsResume(f, p, b);
  }

  lemma AtEnd(a: seq<Byte>, b: seq<Byte>)
    requires HeadOf(a).More? || HeadOf(a).Refused?
    ensures Parse(a + b) == Resume(Parse(a), b)
  {
    if HeadOf(a).More? {
      assert [] + Parse(a + b).frames == Parse(a + b).frames;
    } else {
      HeadIsDecided(a, b);
    }
  }

  lemma CutBefore<T>(a: seq<T>, b: seq<T>, m: nat, n: nat)
    requires m <= n <= |a|
    ensures (a + b)[n..] == a[n..] + b && (a + b)[m..n] == a[m..n]
  {
  }

  lemma ParseBoth(a: seq<Byte>, b: seq<Byte>, h: Head, rest: seq<Byte>, q: Parsed)
    requires h == HeadOf(a) && (h.Blank? || h.Full?) && rest == a[TakenBy(h)..] && Parse(rest + b) == q
    ensures Parse(a + b) == WithHead(h, a[4..TakenBy(h)], q)
  {
    var n := TakenBy(h);
    HeadIsDecided(a, b);
    CutBefore(a, b, 4, n);
    ParseRest(a + b, h, rest + b, q);
  }

  lemma Glue(h: Head, f: Frame, a: seq<Byte>, b: seq<Byte>, p: Parsed, q: Parsed)
    requires Parse(a) == WithHead(h, f, p) && Parse(a + b) == WithHead(h, f, q) && q == Resume(p, b)
    ensures Parse(a + b) == Resume(Parse(a), b)
  {
    ResumeWithHead(h, f, p, b);
  }

  lemma OneHead(a: seq<Byte>, b: seq<Byte>, h: Head, rest: seq<Byte>, p: Parsed, q: Parsed)
    requires h == HeadOf(a) && (h.Blank? || h.Full?) && rest == a[TakenBy(h)..]
    requires Parse(rest) == p && Parse(rest + b) == q && q == Resume(p, b)
    ensures Parse(a + b) == Resume(Parse(a), b)
  {
    ParseRest(a, h, rest, p);
    ParseBoth(a, b, h, rest, q);
    Glue(h, a[4..TakenBy(h)], a, b, p, q);
  }

  /** Parsing may stop after any byte and go on later from the unconsumed tail. */
  lemma {:induction false} ParseAppend(a: seq<Byte>, b: seq<Byte>)
    ensures Parse(a + b) == Resume(Parse(a), b)
    decreases |a|
  {
    var h := HeadOf(a);
    if h.More? || h.Refused? {
      AtEnd(a, b);
    } else {
      var rest := a[TakenBy(h)..];
      ParseAppend(rest, b);
      OneHead(a, b, h, rest, Parse(rest), Parse(rest + b));
    }
  }

  lemma {:induction false} FramesAreShort(b: seq<Byte>, i: nat)
    requires i < |Parse(b).frames|
    ensures 1 <= |Parse(b).frames[i]| <= 16384 && |Parse(b).frames[i]| + 4 <= |b|
  {
    match HeadOf(b)
    case Blank => FramesAreShort(b[4..], i);
    case Full(len) => if i > 0 { FramesAreShort(b[4 + len..], i - 1); }
  }

  // ---------------------------------------------------------------- encoding

  /** The server's `send_frame`: nothing at all for an empty payload. */
  function Encode(payload: Frame): seq<Byte> {
    if payload == [] then [] else WriteHeader(|payload|) + payload
  }

  /** The clients' `send_frame`: no size check, and an empty payload becomes a bare header. */
  function ClientEncode(payload: Frame): seq<Byte> {
    WriteHeader(|payload| % UINT32_RANGE) + payload
  }

  function EncodeAll(payloads: seq<Frame>): seq<Byte> {
    if payloads == [] then [] else Encode(payloads[0]) + EncodeAll(payloads[1..])
  }

  function ClientEncodeAll(payloads: seq<Frame>): seq<Byte> {
    if payloads == [] then [] else ClientEncode(payloads[0]) + ClientEncodeAll(payloads[1..])
  }

  function NonEmpty(payloads: seq<Frame>): seq<Frame> {
    if payloads == [] then []
    else (if payloads[0] == [] then [] else [payloads[0]]) + NonEmpty(payloads[1..])
  }

  predicate Sendable(payloads: seq<Frame>) {
    forall i :: 0 <= i < |payloads| ==> |payloads[i]| <= 16384
  }

  lemma {:induction false} ParseEncoded(payload: Frame, more: seq<Byte>)
    requires 1 <= |payload| <= MAX_FRAME_SIZE
    ensures Parse(WriteHeader(|payload|) + payload + more)
            == Parsed([payload] + Parse(more).frames, Parse(more).rest, Parse(more).bad)
  {
    var b := WriteHeader(|payload|) + payload + more;
    HeaderRoundTrip(|payload|);
    assert b[..4] == WriteHeader(|payload|);
    assert b[4..4 + |payload|] == payload && b[4 + |payload|..] == more;
  }

  lemma ParseEmptyHeader(more: seq<Byte>)
    ensures Parse(WriteHeader(0) + more) == Parse(more)
  {
    var b := WriteHeader(0) + more;
    HeaderRoundTrip(0);
    assert b[..4] == WriteHeader(0) && b[4..] == more;
  }

  // ---------------------------------------------------------------- what a stream consists of

  /** A header as it was received, and the bytes behind it. */
  datatype Unit = Unit(header: seq<Byte>, body: Frame)

  /** The header is read as the length of the body, which is within the limit. */
  predicate IsUnit(u: Unit) {
    |u.header| == 4 && ReadHeader(u.header) == Some(|u.body|) && |u.body| <= 16384
  }

  /** A header that no number can be read from, or one too large. */
  predicate IsRefused(rest: seq<Byte>) {
    |rest| >= 4 && (ReadHeader(rest[..4]) == None || ReadHeader(rest[..4]).value > 16384)
  }

  /** Less than a header, or less than the frame it announces. */
  predicate IsIncomplete(rest: seq<Byte>) {
    |rest| < 4 || (ReadHeader(rest[..4]).Some? && |rest| - 4 < ReadHeader(rest[..4]).value <= 16384)
  }

  function StreamOf(units: seq<Unit>): seq<Byte> {
    if units == [] then [] else units[0].header + units[0].body + StreamOf(units[1..])
  }

  function BodiesOf(units: seq<Unit>): seq<Frame> {
    seq(|units|, i requires 0 <= i < |units| => units[i].body)
  }

  lemma ParseUnit(u: Unit, more: seq<Byte>)
    requires IsUnit(u)
    ensures Parse(u.header + u.body + more)
            == Parsed((if u.body == [] then [] else [u.body]) + Parse(more).frames, Parse(more).rest, Parse(more).bad)
  {
    var b := u.header + u.body + more;
    assert b[..4] == u.header;
    assert b[4..4 + |u.body|] == u.body && b[4 + |u.body|..] == more;
    if u.body == [] { assert [] + Parse(more).frames == Parse(more).frames; }
  }

  lemma UnitsCons(units: seq<Unit>)
    requires units != []
    ensures units == [units[0]] + units[1..] && BodiesOf(units) == [units[0].body] + BodiesOf(units[1..])
  {
  }

  lemma StreamCons(u: Unit, later: seq<Unit>, rest: seq<Byte>)
    ensures StreamOf([u] + later) + rest == u.header + u.body + (StreamOf(later) + rest)
  {
    assert ([u] + later)[1..] == later;
    Regroup(u.header + u.body, StreamOf(later), rest);
  }

  lemma FirstUnit(b: seq<Byte>) returns (u: Unit, more: seq<Byte>)
    requires !IsRefused(b) && !IsIncomplete(b)
    ensures IsUnit(u) && b == u.header + u.body + more && |more| < |b|
  {
    var len := ReadHeader(b[..4]).value;
    u, more := Unit(b[..4], b[4..4 + len]), b[4 + len..];
  }

  /** Whatever the headers look like: complete frames within 16384 bytes are delivered in order, empty ones
      are skipped, and the first header that cannot be read or announces more is refused. */
  lemma {:induction false} StreamParses(units: seq<Unit>, rest: seq<Byte>)
    requires forall i :: 0 <= i < |units| ==> IsUnit(units[i])
    requires IsRefused(rest) || IsIncomplete(rest)
    ensures Parse(StreamOf(units) + rest) == Parsed(NonEmpty(BodiesOf(units)), rest, IsRefused(rest))
  {
    if units == [] {
      NoUnits(rest);
    } else {
      StreamParses(units[1..], rest);
      MoreUnits(units, rest);
    }
  }

  lemma NoUnits(rest: seq<Byte>)
    requires IsRefused(rest) || IsIncomplete(rest)
    ensures Parse(StreamOf([]) + rest) == Parsed(NonEmpty(BodiesOf([])), rest, IsRefused(rest))
  {
    assert [] + rest == rest;
  }

  lemma MoreUnits(units: seq<Unit>, rest: seq<Byte>)
    requires units != [] && IsUnit(units[0])
    requires Parse(StreamOf(units[1..]) + rest) == Parsed(NonEmpty(BodiesOf(units[1..])), rest, IsRefused(rest))
    ensures Parse(StreamOf(units) + rest) == Parsed(NonEmpty(BodiesOf(units)), rest, IsRefused(rest))
  {
    var u, later := units[0], units[1..];
    UnitsCons(units);
    StreamCons(u, later, rest);
    ParseUnit(u, StreamOf(later) + rest);
    assert BodiesOf(units)[1..] == BodiesOf(later);
  }

  /** Every buffer consists of such frames and such a rest, so this says what any of them is parsed to. */
  lemma {:induction false} EveryStream(b: seq<Byte>) returns (units: seq<Unit>, rest: seq<Byte>)
    ensures forall i :: 0 <= i < |units| ==> IsUnit(units[i])
    ensures (IsRefused(rest) || IsIncomplete(rest)) && b == StreamOf(units) + rest
    decreases |b|
  {
    if IsRefused(b) || IsIncomplete(b) {
      units, rest := [], b;
      assert b == [] + b;
    } else {
      var u, more := FirstUnit(b);
      var later: seq<Unit>;
      later, rest := EveryStream(more);
      units := [u] + later;
      StreamCons(u, later, rest);
    }
  }

  /** Everything the server may send is parsed back, in order, with nothing left over. */
  lemma {:induction false} RoundTrip(payloads: seq<Frame>)
    requires Sendable(payloads)
    ensures Parse(EncodeAll(payloads)) == Parsed(NonEmpty(payloads), [], false)
  {
    if payloads != [] {
      RoundTrip(payloads[1..]);
      if payloads[0] == [] {
        assert EncodeAll(payloads) == EncodeAll(payloads[1..]);
      } else {
        ParseEncoded(payloads[0], EncodeAll(payloads[1..]));
      }
    }
  }

  /** The clients' frames reach the server the same way as long as they fit its limit. */
  lemma {:induction false} ClientToServer(payloads: seq<Frame>)
    requires Sendable(payloads)
    ensures Parse(ClientEncodeAll(payloads)) == Parsed(NonEmpty(payloads), [], false)
  {
    if payloads != [] {
      var p, more := payloads[0], ClientEncodeAll(payloads[1..]);
      ClientToServer(payloads[1..]);
      assert |p| % UINT32_RANGE == |p|;
      if p == [] {
        assert ClientEncode(p) + more == WriteHeader(0) + more;
        ParseEmptyHeader(more);
      } else {
        ParseEncoded(p, more);
      }
    }
  }

  /** A client's frame arrives as it was sent exactly when it has at most 16384 bytes: the client does
      not check, and beyond 65535 the header no longer even holds the length. */
  lemma ClientFrameArrivesExactly(p: Frame)
    ensures Parse(ClientEncode(p)) == Parsed(NonEmpty([p]), [], false) <==> |p| <= 16384
  {
    if |p| <= MAX_FRAME_SIZE {
      ClientToServer([p]);
      assert ClientEncodeAll([p]) == ClientEncode(p) + [] == ClientEncode(p);
    } else {
      var n := |p| % UINT32_RANGE;
      var b := WriteHeader(n) + p;
      HeaderRoundTrip(n);
      assert b[..4] == WriteHeader(n);
      assert NonEmpty([p]) == [p] + [] == [p];
      if HeadOf(b).Blank? && Parse(b).frames == [p] {
        assert b[4..] == p;
        FramesAreShort(p, 0);
      }
    }
  }
}
