/** The clients' decoder, shared by the handshake and the main loop of the terminal client and by the
    Windows client. It checks no maximum, and `4 + len` is computed in 32 bits. */
module ClientFraming {
  import opened HexHeader
  import opened Framing
  import opened Collections
  import C = Communication

  /** Why a round of the loop stops, or the frame it shows and how much it erases. */
  datatype ClientHead = Wait | Unreadable | Show(payload: Frame, erased: nat)

  function Min(a: nat, b: nat): nat { if a < b then a else b }

  /** `substr(4, len)` and `erase(0, 4 + len)` both stop at the end of the buffer. */
  function ClientHeadOf(b: seq<Byte>): (h: ClientHead)
    ensures h.Show? ==> h.erased <= |b|
  {
    if |b| < 4 then Wait
    else
      match ReadHeader(b[..4])
      case None => Unreadable
      case Some(len) =>
        if |b| < (4 + len) % UINT32_RANGE then Wait
        else Show(b[4..Min(4 + len, |b|)], (4 + len) % UINT32_RANGE)
  }

  /** The sum wrapped around: the header was a negative number from -4 to -1. */
  predicate Wraps(b: seq<Byte>) {
    |b| >= 4 && ReadHeader(b[..4]).Some? && ReadHeader(b[..4]).value + 4 >= UINT32_RANGE
  }

  datatype Outcome = Waiting | BadHeader | Spinning

  datatype Decoded = Result(frames: seq<Frame>, rest: seq<Byte>, outcome: Outcome, wrapped: bool)

  /** The reference meaning of the whole loop. `Spinning` is a header that erases nothing, on which the
      loop shows the same bytes for ever. */
  function Decode(b: seq<Byte>): Decoded {
    match ClientHeadOf(b)
    case Wait => Result([], b, Waiting, false)
    case Unreadable => Result([], b, BadHeader, false)
    case Show(payload, erased) =>
      if erased == 0 then Result([payload], b, Spinning, true)
      else
        var r := Decode(b[erased..]);
        Result([payload] + r.frames, r.rest, r.outcome, r.wrapped || Wraps(b))
  }

  /** Going on with `b` after `r` was decoded from the bytes before it. */
  function Resume(r: Decoded, b: seq<Byte>): Decoded {
    if !r.outcome.Waiting? then Result(r.frames, r.rest + b, r.outcome, r.wrapped)
    else
      var q := Decode(r.rest + b);
      Result(r.frames + q.frames, q.rest, q.outcome, r.wrapped || q.wrapped)
  }

  lemma HeadIsDecided(a: seq<Byte>, b: seq<Byte>)
    requires !ClientHeadOf(a).Wait? && !Wraps(a)
    ensures ClientHeadOf(a + b) == ClientHeadOf(a) && !Wraps(a + b)
    ensures ClientHeadOf(a).Show? ==> ClientHeadOf(a).erased >= 4
  {
    assert (a + b)[..4] == a[..4];
    if ClientHeadOf(a).Show? {
      var len := ReadHeader(a[..4]).value;
      assert (4 + len) % UINT32_RANGE == 4 + len;
      assert (a + b)[4..4 + len] == a[4..4 + len];
    }
  }

  /** The clients' decoder does not care where reads are cut either, as long as no header wraps. */
  lemma {:induction false} DecodeAppend(a: seq<Byte>, b: seq<Byte>)
    requires !Decode(a).wrapped
    ensures Decode(a + b) == Resume(Decode(a), b)
    decreases |a|
  {
    match ClientHeadOf(a)
    case Wait =>
      assert [] + Decode(a + b).frames == Decode(a + b).frames;
    case Unreadable =>
      HeadIsDecided(a, b);
    case Show(payload, erased) =>
      HeadIsDecided(a, b);
      var rest := a[erased..];
      ShownInBoth(a, b, rest, Decode(rest), Decode(rest + b));
      DecodeAppend(rest, b);
      ConsResume(payload, Decode(rest), b);
  }

  lemma ConsResume(f: Frame, r: Decoded, b: seq<Byte>)
    ensures var q := Resume(r, b);
            Resume(Result([f] + r.frames, r.rest, r.outcome, r.wrapped), b)
            == Result([f] + q.frames, q.rest, q.outcome, q.wrapped)
  {
    if r.outcome.Waiting? {
      var more := Decode(r.rest + b).frames;
      assert ([f] + r.frames) + more == [f] + (r.frames + more);
    }
  }

  // ---------------------------------------------------------------- wrapped headers

  /** A waiting decoder has nothing more to show of its tail. */
  lemma {:induction false} RestIsWaiting(b: seq<Byte>)
    requires Decode(b).outcome.Waiting?
    ensures Decode(Decode(b).rest) == Result([], Decode(b).rest, Waiting, false)
  {
    if ClientHeadOf(b).Show? { RestIsWaiting(b[ClientHeadOf(b).erased..]); }
  }

  lemma ResumeNothing(a: seq<Byte>)
    ensures Resume(Decode(a), []) == Decode(a + [])
  {
    var r := Decode(a);
    assert a + [] == a && r.rest + [] == r.rest && r.frames + [] == r.frames;
    if r.outcome.Waiting? { RestIsWaiting(a); }
  }

  lemma MoreFrames(r: Decoded, b: seq<Byte>)
    ensures r.frames <= Resume(r, b).frames
  {
  }

  /** A wrapped header shows everything behind it, so it shows more when more has arrived. */
  lemma WrappedShowsAll(a: seq<Byte>)
    requires Wraps(a) && |a| < UINT32_RANGE
    ensures ClientHeadOf(a).Show? && ClientHeadOf(a).payload == a[4..] && ClientHeadOf(a).erased < 4
  {
    var len := ReadHeader(a[..4]).value;
    assert (4 + len) % UINT32_RANGE == 4 + len - UINT32_RANGE;
  }

  lemma {:induction false} WrappedDiffers(a: seq<Byte>, b: seq<Byte>) returns (i: nat)
    requires Decode(a).wrapped && b != [] && |a + b| < UINT32_RANGE
    ensures i < |Decode(a).frames| && i < |Decode(a + b).frames| && Decode(a).frames[i] != Decode(a + b).frames[i]
    decreases |a|
  {
    if Wraps(a) {
      WrappedHeadDiffers(a, b);
      i := 0;
    } else {
      var rest, f := HeadIsShared(a, b);
      var k := WrappedDiffers(rest, b);
      i := k + 1;
      LaterDiffers(f, Decode(rest).frames, Decode(rest + b).frames, k);
    }
  }

  lemma LaterDiffers(f: Frame, x: seq<Frame>, y: seq<Frame>, k: nat)
    requires k < |x| && k < |y| && x[k] != y[k]
    ensures ([f] + x)[k + 1] != ([f] + y)[k + 1]
  {
  }

  lemma WrappedHeadDiffers(a: seq<Byte>, b: seq<Byte>)
    requires Wraps(a) && b != [] && |a + b| < UINT32_RANGE
    ensures Decode(a).frames != [] && Decode(a + b).frames != [] && Decode(a).frames[0] != Decode(a + b).frames[0]
  {
    assert (a + b)[..4] == a[..4];
    WrappedShowsAll(a);
    WrappedShowsAll(a + b);
    assert |(a + b)[4..]| > |a[4..]|;
  }

  /** The part of a buffer behind a first header that does not wrap, and what that header shows. */
  lemma ShownFirst(a: seq<Byte>, erased: nat, rest: seq<Byte>, r: Decoded)
    requires ClientHeadOf(a).Show? && !Wraps(a) && erased == ClientHeadOf(a).erased && 0 < erased <= |a|
    requires rest == a[erased..] && Decode(rest) == r
    ensures Decode(a) == Result([ClientHeadOf(a).payload] + r.frames, r.rest, r.outcome, r.wrapped)
  {
  }

  lemma ShownInBoth(a: seq<Byte>, b: seq<Byte>, rest: seq<Byte>, r: Decoded, q: Decoded)
    requires ClientHeadOf(a).Show? && !Wraps(a) && rest == a[ClientHeadOf(a).erased..]
    requires Decode(rest) == r && Decode(rest + b) == q
    ensures Decode(a) == Result([ClientHeadOf(a).payload] + r.frames, r.rest, r.outcome, r.wrapped)
    ensures Decode(a + b) == Result([ClientHeadOf(a).payload] + q.frames, q.rest, q.outcome, q.wrapped)
  {
    var head := HeadOfBoth(a, b, rest);
    ShownFirst(a, head.erased, rest, r);
    ShownFirst(a + b, head.erased, rest + b, q);
  }

  lemma HeadOfBoth(a: seq<Byte>, b: seq<Byte>, rest: seq<Byte>) returns (head: ClientHead)
    requires ClientHeadOf(a).Show? && !Wraps(a) && rest == a[ClientHeadOf(a).erased..]
    ensures head == ClientHeadOf(a) == ClientHeadOf(a + b) && 0 < head.erased <= |a| && !Wraps(a + b)
    ensures (a + b)[head.erased..] == rest + b
  {
    HeadIsDecided(a, b);
    head := ClientHeadOf(a);
    CutBefore(a, b, 0, head.erased);
  }

  /** A first header that does not wrap shows the same, however much follows. */
  lemma HeadIsShared(a: seq<Byte>, b: seq<Byte>) returns (rest: seq<Byte>, f: Frame)
    requires Decode(a).wrapped && !Wraps(a)
    ensures |rest| < |a| && |rest + b| < |a + b| && Decode(rest).wrapped
    ensures Decode(a).frames == [f] + Decode(rest).frames
    ensures Decode(a + b).frames == [f] + Decode(rest + b).frames
  {
    HeadIsDecided(a, b);
    f, rest := ClientHeadOf(a).payload, a[ClientHeadOf(a).erased..];
    ShownInBoth(a, b, rest, Decode(rest), Decode(rest + b));
  }

  /** For every buffer below 4 GiB: what is decoded before and after a cut is what the uncut bytes decode
      to exactly when nothing follows the cut or no header before it wraps. */
  lemma CutDoesNotMatterExactly(a: seq<Byte>, b: seq<Byte>)
    requires |a + b| < UINT32_RANGE
    ensures Decode(a + b) == Resume(Decode(a), b) <==> b == [] || !Decode(a).wrapped
  {
    if b == [] {
      ResumeNothing(a);
    } else if Decode(a).wrapped {
      var i := WrappedDiffers(a, b);
      MoreFrames(Decode(a), b);
      assert Resume(Decode(a), b).frames[i] == Decode(a).frames[i];
    } else {
      DecodeAppend(a, b);
    }
  }

  function MinusHeader(d: nat): seq<Byte>
    requires d < 10
  {
    [45, 48, 48, 48 + d]
  }

  lemma ReadsMinus(d: nat)
    requires 1 <= d < 10
    ensures ReadHeader(MinusHeader(d)) == Some(UINT32_RANGE - d)
  {
    var h := MinusHeader(d);
    var digits := h[1..];
    assert digits == [48, 48, 48 + d];
    DigitPrefixOfDigits(digits);
    assert digits[1..] == [48, 48 + d] && [48, 48 + d][1..] == [48 + d] && [48 + d][1..] == [];
    assert DigitsValue(digits, 0) == DigitsValue([48, 48 + d], 0) == DigitsValue([48 + d], 0) == DigitsValue([], d);
  }

  lemma MinusWraps(d: nat, more: seq<Byte>)
    requires 1 <= d <= 4 && |more| + 4 < UINT32_RANGE
    ensures Wraps(MinusHeader(d) + more) && ClientHeadOf(MinusHeader(d) + more) == Show(more, 4 - d)
  {
    var b := MinusHeader(d) + more;
    assert b[..4] == MinusHeader(d) && b[4..] == more;
    ReadsMinus(d);
    WrappedShowsAll(b);
  }

  /** The header "-004" erases nothing: the loop shows what follows it again and again. */
  lemma {:induction false} MinusFourSpins(more: seq<Byte>)
    requires |more| + 4 < UINT32_RANGE
    ensures Decode(MinusHeader(4) + more) == Result([more], MinusHeader(4) + more, Spinning, true)
  {
    MinusWraps(4, more);
  }

  /** A wrapped header makes the result depend on the cuts: "-001" followed by "ab" shows nothing, then
      one thing or another. */
  lemma WrappedDependsOnCuts()
    ensures var a, b := MinusHeader(1), [97, 98];
            Decode(a).wrapped && Decode(a + b) != Resume(Decode(a), b)
  {
    var a, b := MinusHeader(1), [97, 98];
    MinusWraps(1, []);
    assert a + [] == a;
    CutDoesNotMatterExactly(a, b);
  }

  // ---------------------------------------------------------------- what the server sends

  lemma {:induction false} ShowsEncoded(payload: Frame, more: seq<Byte>)
    requires |payload| <= 65535
    ensures var r := Decode(more);
            Decode(WriteHeader(|payload|) + payload + more) == Result([payload] + r.frames, r.rest, r.outcome, r.wrapped)
  {
    var b := WriteHeader(|payload|) + payload + more;
    HeaderRoundTrip(|payload|);
    assert b[..4] == WriteHeader(|payload|);
    assert b[4..4 + |payload|] == payload && b[4 + |payload|..] == more;
    assert (4 + |payload|) % UINT32_RANGE == 4 + |payload|;
    assert ClientHeadOf(b) == Show(payload, 4 + |payload|) && !Wraps(b);
  }

  /** A header that announces any body that does not make `4 + len` wrap. */
  predicate IsShownUnit(u: Unit) {
    |u.header| == 4 && ReadHeader(u.header) == Some(|u.body|) && |u.body| + 4 < UINT32_RANGE
  }

  predicate IsUnreadable(rest: seq<Byte>) {
    |rest| >= 4 && ReadHeader(rest[..4]) == None
  }

  predicate IsWaiting(rest: seq<Byte>) {
    |rest| < 4 || (ReadHeader(rest[..4]).Some? && |rest| - 4 < ReadHeader(rest[..4]).value < UINT32_RANGE - 4)
  }

  lemma ShowsUnit(u: Unit, more: seq<Byte>)
    requires IsShownUnit(u)
    ensures var r := Decode(more);
            Decode(u.header + u.body + more) == Result([u.body] + r.frames, r.rest, r.outcome, r.wrapped)
  {
    var b := u.header + u.body + more;
    assert b[..4] == u.header;
    assert b[4..4 + |u.body|] == u.body && b[4 + |u.body|..] == more;
    assert (4 + |u.body|) % UINT32_RANGE == 4 + |u.body|;
    assert ClientHeadOf(b) == Show(u.body, 4 + |u.body|) && !Wraps(b);
  }

  lemma StopsAt(rest: seq<Byte>)
    requires IsUnreadable(rest) || IsWaiting(rest)
    ensures Decode(rest) == Result([], rest, if IsUnreadable(rest) then BadHeader else Waiting, false)
  {
    if |rest| >= 4 && ReadHeader(rest[..4]).Some? {
      var len := ReadHeader(rest[..4]).value;
      assert (4 + len) % UINT32_RANGE == 4 + len;
    }
  }

  function OutcomeAt(rest: seq<Byte>): Outcome {
    if IsUnreadable(rest) then BadHeader else Waiting
  }

  lemma OneMoreUnit(u: Unit, more: seq<Byte>, r: Decoded, b: seq<Byte>)
    requires IsShownUnit(u) && Decode(more) == r && b == u.header + u.body + more
    ensures Decode(b) == Result([u.body] + r.frames, r.rest, r.outcome, r.wrapped)
  {
    ShowsUnit(u, more);
  }

  lemma NoUnits(rest: seq<Byte>)
    requires IsUnreadable(rest) || IsWaiting(rest)
    ensures Decode(StreamOf([]) + rest) == Result(BodiesOf([]), rest, OutcomeAt(rest), false)
  {
    assert [] + rest == rest;
    StopsAt(rest);
  }

  lemma MoreUnits(units: seq<Unit>, rest: seq<Byte>)
    requires units != [] && IsShownUnit(units[0])
    requires Decode(StreamOf(units[1..]) + rest) == Result(BodiesOf(units[1..]), rest, OutcomeAt(rest), false)
    ensures Decode(StreamOf(units) + rest) == Result(BodiesOf(units), rest, OutcomeAt(rest), false)
  {
    var u, later := units[0], units[1..];
    UnitsCons(units);
    StreamCons(u, later, rest);
    OneMoreUnit(u, StreamOf(later) + rest, Result(BodiesOf(later), rest, OutcomeAt(rest), false), StreamOf(units) + rest);
  }

  /** Whatever the headers look like: complete frames of any size are shown in order, empty ones too, until
      a header that cannot be read, which ends the loop, or a frame that is not complete. */
  lemma {:induction false} StreamDecodes(units: seq<Unit>, rest: seq<Byte>)
    requires forall i :: 0 <= i < |units| ==> IsShownUnit(units[i])
    requires IsUnreadable(rest) || IsWaiting(rest)
    ensures Decode(StreamOf(units) + rest)
            == Result(BodiesOf(units), rest, if IsUnreadable(rest) then BadHeader else Waiting, false)
  {
    if units == [] {
      NoUnits(rest);
    } else {
      StreamDecodes(units[1..], rest);
      MoreUnits(units, rest);
    }
  }

  /** What the server sends is shown by the clients, in order, with nothing left over. */
  lemma {:induction false} ServerToClient(payloads: seq<Frame>)
    requires Sendable(payloads)
    ensures Decode(EncodeAll(payloads)) == Result(NonEmpty(payloads), [], Waiting, false)
  {
    if payloads != [] {
      ServerToClient(payloads[1..]);
      if payloads[0] == [] {
        assert EncodeAll(payloads) == EncodeAll(payloads[1..]);
      } else {
        ShowsEncoded(payloads[0], EncodeAll(payloads[1..]));
      }
    }
  }

  // ---------------------------------------------------------------- what the clients send

  /** A client's `send_frame` succeeds: it checks no size, and an empty payload needs its header only. */
  predicate ClientDelivers(n: nat, link: C.Link) {
    link.headerSent == 4 && C.Completes(n, link.sends)
  }

  lemma PartOfFrame(payload: Frame, n: nat)
    requires n <= 4 + |payload|
    ensures ClientEncode(payload)[..n] <= ClientEncode(payload)
    ensures ClientEncode(payload)[..n] == ClientEncode(payload) <==> n == 4 + |payload|
  {
    assert |ClientEncode(payload)[..n]| == n;
  }

  lemma BodyOfFrame(payload: Frame, total: nat)
    requires total <= |payload|
    ensures WriteHeader(|payload| % UINT32_RANGE) + payload[..total] == ClientEncode(payload)[..4 + total]
  {
  }

  /** The clients' `send_frame`; `wire` is what the kernel accepted. */
  method SendFrame(payload: Frame, link: C.Link) returns (ok: bool, wire: seq<Byte>)
    ensures ok <==> ClientDelivers(|payload|, link)
    ensures wire <= ClientEncode(payload) && (ok <==> wire == ClientEncode(payload))
  {
    var header := WriteHeader(|payload| % UINT32_RANGE);
    if link.headerSent != 4 {
      wire := header[..if link.headerSent > 0 then link.headerSent else 0];
      PartOfFrame(payload, |wire|);
      assert wire == ClientEncode(payload)[..|wire|];
      return false, wire;
    }
    var sent, i := 0, 0;
    while sent < |payload|
      invariant sent <= |payload| && 0 <= i <= |link.sends|
      invariant C.Completes(|payload|, link.sends) <==> C.Completes(|payload| - sent, link.sends[i..])
      decreases |payload| - sent
    {
      if i == |link.sends| || link.sends[i] <= 0 { break; }
      assert link.sends[i..][1..] == link.sends[i + 1..];
      sent := sent + if link.sends[i] <= |payload| - sent then link.sends[i] else |payload| - sent;
      i := i + 1;
    }
    BodyOfFrame(payload, sent);
    PartOfFrame(payload, 4 + sent);
    ok, wire := sent == |payload|, header + payload[..sent];
  }

  lemma SentOne(payloads: seq<Frame>, k: nat, wire: seq<Byte>, more: seq<Byte>)
    requires k < |payloads|
    requires wire + ClientEncodeAll(payloads[k..]) == ClientEncodeAll(payloads) && more <= ClientEncode(payloads[k])
    ensures wire + more <= ClientEncodeAll(payloads)
    ensures more != ClientEncode(payloads[k]) ==> wire + more != ClientEncodeAll(payloads)
    ensures more == ClientEncode(payloads[k]) ==>
              (wire + more) + ClientEncodeAll(payloads[k + 1..]) == ClientEncodeAll(payloads)
  {
    var one, later := ClientEncode(payloads[k]), ClientEncodeAll(payloads[k + 1..]);
    assert payloads[k..][1..] == payloads[k + 1..];
    PartOfNext(wire, more, one, later);
  }

  /** A client's requests one after the other, given up at the first failure. */
  method SendAll(payloads: seq<Frame>, links: seq<C.Link>) returns (ok: bool, wire: seq<Byte>)
    requires |links| == |payloads|
    ensures ok <==> forall i :: 0 <= i < |payloads| ==> ClientDelivers(|payloads[i]|, links[i])
    ensures wire <= ClientEncodeAll(payloads)
    ensures ok <==> wire == ClientEncodeAll(payloads)
  {
    ok, wire := true, [];
    for k := 0 to |payloads|
      invariant ok && forall i :: 0 <= i < k ==> ClientDelivers(|payloads[i]|, links[i])
      invariant wire + ClientEncodeAll(payloads[k..]) == ClientEncodeAll(payloads)
    {
      var more: seq<Byte>;
      ok, more := SendFrame(payloads[k], links[k]);
      SentOne(payloads, k, wire, more);
      wire := wire + more;
      if !ok { return; }
    }
  }

  // ---------------------------------------------------------------- the client's loops

  /** The frames already taken out, followed by a decoding of what is left. */
  function Then(done: seq<Frame>, r: Decoded): Decoded {
    Result(done + r.frames, r.rest, r.outcome, r.wrapped)
  }

  /** The same, one round of the loop later. */
  function OneRoundLater(done: seq<Frame>, b: seq<Byte>): Decoded {
    match ClientHeadOf(b)
    case Wait => Result(done, b, Waiting, false)
    case Unreadable => Result(done, b, BadHeader, false)
    case Show(payload, erased) =>
      if erased == 0 then Result(done + [payload], b, Spinning, true)
      else
        var r := Then(done + [payload], Decode(b[erased..]));
        Result(r.frames, r.rest, r.outcome, r.wrapped || Wraps(b))
  }

  lemma TakeOne(done: seq<Frame>, b: seq<Byte>)
    ensures Then(done, Decode(b)) == OneRoundLater(done, b)
  {
    if ClientHeadOf(b).Show? && ClientHeadOf(b).erased > 0 {
      var f, later := ClientHeadOf(b).payload, Decode(b[ClientHeadOf(b).erased..]).frames;
      assert done + ([f] + later) == (done + [f]) + later;
    }
  }

  /** The receiving state of a client: `acc`, and the frames its loops have taken out of it. */
  class Receiver {
    var acc: seq<Byte>
    var frames: seq<Frame>

    constructor ()
      ensures acc == [] && frames == []
    {
      acc, frames := [], [];
    }

    /** The inner loop, run by both outer loops after each `acc.append`. */
    method DecodeLoop() returns (outcome: Outcome)
      modifies this
      ensures var r := Decode(old(acc));
              acc == r.rest && frames == old(frames) + r.frames && outcome == r.outcome
    {
      ghost var all := Then(frames, Decode(acc));
      while |acc| >= 4
        invariant all.frames == Then(frames, Decode(acc)).frames
        invariant all.rest == Decode(acc).rest && all.outcome == Decode(acc).outcome
        decreases |acc|
      {
        var head := ClientHeadOf(acc);
        TakeOne(frames, acc);
        match head {
          case Unreadable => return BadHeader;
          case Wait => break;
          case Show(payload, erased) =>
            frames := frames + [payload];
            if erased == 0 { return Spinning; }
            acc := acc[erased..];
        }
      }
      TakeOne(frames, acc);
      outcome := Waiting;
    }

    /** One read of either outer loop: append, then decode. */
    method Receive(chunk: seq<Byte>) returns (outcome: Outcome)
      modifies this
      ensures var r := Decode(old(acc) + chunk);
              acc == r.rest && frames == old(frames) + r.frames && outcome == r.outcome
    {
      acc := acc + chunk;
      outcome := DecodeLoop();
    }

    /** Handshake reads followed by main-loop reads on the same `acc`: no frame is lost, repeated or
        reordered where the first loop hands over to the second. */
    method Converse(handshake: seq<seq<Byte>>, main: seq<seq<Byte>>) returns (outcome: Outcome)
      requires acc == [] && frames == []
      requires !Decode(Joined(handshake + main)).wrapped && Decode(Joined(handshake + main)).outcome.Waiting?
      modifies this
      ensures var r := Decode(Joined(handshake + main));
              outcome.Waiting? && frames == r.frames && acc == r.rest
    {
      outcome := Waiting;
      var chunks := handshake + main;
      for k := 0 to |chunks|
        invariant outcome.Waiting?
        invariant Decode(Joined(chunks[..k])) == Result(frames, acc, Waiting, false)
      {
        ReadContinues(chunks, k);
        outcome := Receive(chunks[k]);
      }
      assert chunks[..|chunks|] == chunks;
    }

    /** Server to client: whatever the reads, once they add up to what the server's sends put on the wire for
        `payloads`, exactly the non-empty payloads have been taken out, in order, and nothing is left. */
    method Listen(handshake: seq<seq<Byte>>, main: seq<seq<Byte>>, ghost payloads: seq<Frame>)
      returns (outcome: Outcome)
      requires acc == [] && frames == []
      requires Sendable(payloads) && Joined(handshake + main) == EncodeAll(payloads)
      modifies this
      ensures outcome.Waiting? && frames == NonEmpty(payloads) && acc == []
    {
      ServerToClient(payloads);
      outcome := Converse(handshake, main);
    }
  }

  function Joined(chunks: seq<seq<Byte>>): seq<Byte> {
    if chunks == [] then [] else Joined(chunks[..|chunks| - 1]) + chunks[|chunks| - 1]
  }

  lemma JoinedAppend(chunks: seq<seq<Byte>>, k: nat)
    requires k < |chunks|
    ensures Joined(chunks[..k + 1]) == Joined(chunks[..k]) + chunks[k]
  {
    assert chunks[..k + 1][..k] == chunks[..k];
  }

  lemma {:induction false} JoinedSplit(chunks: seq<seq<Byte>>, k: nat)
    requires k <= |chunks|
    ensures Joined(chunks) == Joined(chunks[..k]) + Joined(chunks[k..])
    decreases |chunks|
  {
    if k == |chunks| {
      assert chunks[..k] == chunks;
    } else {
      var init := chunks[..|chunks| - 1];
      JoinedSplit(init, k);
      assert init[..k] == chunks[..k] && chunks[k..][..|chunks| - k - 1] == init[k..];
    }
  }

  /** Along a trouble-free conversation, each read continues the decoding of the bytes before it. */
  lemma {:induction false} ReadContinues(chunks: seq<seq<Byte>>, k: nat)
    requires k < |chunks| && !Decode(Joined(chunks)).wrapped && Decode(Joined(chunks)).outcome.Waiting?
    ensures var before, after := Decode(Joined(chunks[..k])), Decode(Joined(chunks[..k + 1]));
            var q := Decode(before.rest + chunks[k]);
            after == Result(before.frames + q.frames, q.rest, Waiting, false) && q.outcome.Waiting? && !q.wrapped
  {
    JoinedAppend(chunks, k);
    JoinedSplit(chunks, k);
    JoinedSplit(chunks, k + 1);
    WaitingUpTo(Joined(chunks[..k]), Joined(chunks[k..]));
    WaitingUpTo(Joined(chunks[..k + 1]), Joined(chunks[k + 1..]));
    DecodeAppend(Joined(chunks[..k]), chunks[k]);
  }

  /** A stream that is decoded to its end without trouble has no trouble in any prefix. */
  lemma {:induction false} WaitingUpTo(a: seq<Byte>, b: seq<Byte>)
    requires !Decode(a + b).wrapped && Decode(a + b).outcome.Waiting?
    ensures !Decode(a).wrapped && Decode(a).outcome.Waiting?
    decreases |a|
  {
    if |a| >= 4 { assert (a + b)[..4] == a[..4]; }
    match ClientHeadOf(a)
    case Wait =>
    case Unreadable =>
      HeadIsDecided(a, b);
    case Show(payload, erased) =>
      assert !Wraps(a);
      HeadIsDecided(a, b);
      assert (a + b)[erased..] == a[erased..] + b;
      WaitingUpTo(a[erased..], b);
  }
}
