/** `Communication`: per-descriptor receive buffers, the incremental decoder, and the sender. The kernel
    is the list of results its `recv` and `send` calls return. */
module Communication {
  import opened HexHeader
  import opened Framing
  import opened Collections

  type Fd = int

  const READ_SIZE: nat := 4096

  /** One result of `recv(fd, buf, 4096, MSG_DONTWAIT)`. */
  datatype Read = Data(bytes: seq<Byte>) | WouldBlock | Failed | Fin

  predicate ValidReads(input: seq<Read>) {
    forall i :: 0 <= i < |input| ==> (input[i].Data? ==> 1 <= |input[i].bytes| <= READ_SIZE)
  }

  /** What the reading loop appends, and whether it throws. A short read ends the loop; when the list is
      used up the socket has nothing more. */
  datatype Taken = Taken(bytes: seq<Byte>, threw: bool)

  function Take(input: seq<Read>): Taken {
    if input == [] then Taken([], false)
    else
      match input[0]
      case Data(bytes) =>
        if |bytes| < READ_SIZE then Taken(bytes, false)
        else
          var t := Take(input[1..]);
          Taken(bytes + t.bytes, t.threw)
      case WouldBlock => Taken([], false)
      case Failed => Taken([], true)
      case Fin => Taken([], true)
  }

  predicate IsFull(r: Read) {
    r.Data? && |r.bytes| == 4096
  }

  predicate IsFault(r: Read) {
    r.Failed? || r.Fin?
  }

  /** The first `n` results are all that the loop asks for: full reads and one that ends it, or full reads
      up to the end of the list. */
  predicate EndsAfter(input: seq<Read>, n: nat) {
    n <= |input| && (forall i :: 0 <= i < n - 1 ==> IsFull(input[i]))
    && if n == 0 then input == [] else n == |input| || !IsFull(input[n - 1])
  }

  /** The data of each result as it came from the kernel. */
  function Chunks(input: seq<Read>): seq<seq<Byte>> {
    seq(|input|, i requires 0 <= i < |input| => if input[i].Data? then input[i].bytes else [])
  }

  /** Every byte the loop was given is taken, also those of the short read that ends it, and only a failure
      or the end of the stream throws. */
  lemma {:induction false} TakesEverything(input: seq<Read>, n: nat)
    requires ValidReads(input) && EndsAfter(input, n)
    ensures Take(input).bytes == Flatten(Chunks(input[..n]))
    ensures Take(input).threw <==> n > 0 && IsFault(input[n - 1])
    decreases |input|
  {
    if n > 0 {
      var rest := input[1..];
      assert Chunks(input[..n])[1..] == Chunks(rest[..n - 1]) && Chunks(input[..n])[0] == Chunks(input)[0];
      if IsFull(input[0]) {
        if n == 1 {
          assert rest == [] && Chunks(rest[..0]) == [];
        } else {
          assert forall i :: 0 <= i < |rest| ==> rest[i] == input[i + 1];
          TakesEverything(rest, n - 1);
        }
      } else {
        assert n == 1 && Chunks(rest[..0]) == [];
      }
    } else {
      assert Chunks(input[..0]) == [];
    }
  }

  /** There is always such a point. */
  lemma {:induction false} LoopEnds(input: seq<Read>) returns (n: nat)
    requires ValidReads(input)
    ensures EndsAfter(input, n)
    decreases |input|
  {
    if input == [] {
      n := 0;
    } else if IsFull(input[0]) && |input| > 1 {
      var rest := input[1..];
      assert forall i :: 0 <= i < |rest| ==> rest[i] == input[i + 1];
      var k := LoopEnds(rest);
      n := k + 1;
      assert forall i :: 0 < i < n - 1 ==> input[i] == rest[i - 1];
    } else {
      n := 1;
    }
  }

  datatype Received = Frames(frames: seq<Frame>) | Threw

  type Buffers = map<Fd, seq<Byte>>

  function BufferOf(rbuf: Buffers, fd: Fd): seq<Byte> {
    if fd in rbuf then rbuf[fd] else []
  }

  /** The buffer and the result after one `recv_frame`, by the reference parser. */
  function AfterRecv(acc: seq<Byte>, input: seq<Read>): (seq<Byte>, Received) {
    var t := Take(input);
    var p := Parse(acc + t.bytes);
    if t.threw then (acc + t.bytes, Threw)
    else (p.rest, if p.bad then Threw else Frames(p.frames))
  }

  /** The buffer and the result when the kernel's results up to the `n`-th are read behind `acc`: all their
      bytes are kept, a fault throws, and otherwise the frames are cut off. */
  ghost predicate Answers(acc: seq<Byte>, input: seq<Read>, n: nat, after: seq<Byte>, r: Received)
    requires EndsAfter(input, n)
  {
    var all := acc + Flatten(Chunks(input[..n]));
    if n > 0 && IsFault(input[n - 1]) then r.Threw? && after == all
    else after == Parse(all).rest && r == if Parse(all).bad then Threw else Frames(Parse(all).frames)
  }

  /** The frames already cut off, followed by a parse of what is left. */
  function Then(done: seq<Frame>, p: Parsed): Parsed {
    Parsed(done + p.frames, p.rest, p.bad)
  }

  lemma ThenOne(done: seq<Frame>, f: Frame, p: Parsed)
    ensures Then(done, Parsed([f] + p.frames, p.rest, p.bad)) == Then(done + [f], p)
  {
    Regroup(done, [f], p.frames);
  }

  lemma ThenNothing(p: Parsed)
    ensures Then([], p) == p
  {
    assert [] + p.frames == p.frames;
  }

  /** What one round of the decoding loop does to it. */
  lemma CutBlank(done: seq<Frame>, acc: seq<Byte>)
    requires HeadOf(acc).Blank?
    ensures Then(done, Parse(acc[4..])) == Then(done, Parse(acc))
  {
  }

  lemma CutFrame(done: seq<Frame>, acc: seq<Byte>, len: nat)
    requires HeadOf(acc) == Full(len)
    ensures Then(done + [acc[4..4 + len]], Parse(acc[4 + len..])) == Then(done, Parse(acc))
  {
    ThenOne(done, acc[4..4 + len], Parse(acc[4 + len..]));
  }

  lemma CutNothing(done: seq<Frame>, acc: seq<Byte>)
    requires HeadOf(acc).More? || HeadOf(acc).Refused?
    ensures Then(done, Parse(acc)) == Parsed(done, acc, HeadOf(acc).Refused?)
  {
  }

  // ---------------------------------------------------------------- the class

  class Communication {
    var rbuf: Buffers

    constructor ()
      ensures rbuf == map[]
    {
      rbuf := map[];
    }

    method ClearBuffer(fd: Fd)
      modifies this`rbuf
      ensures rbuf == old(rbuf) - {fd}
    {
      rbuf := rbuf - {fd};
    }

    /** `acc` is the source's reference to `rbuf[fd]`: every exit leaves its value there. */
    method RecvFrame(fd: Fd, input: seq<Read>) returns (r: Received)
      requires ValidReads(input)
      modifies this`rbuf
      ensures rbuf == old(rbuf)[fd := AfterRecv(BufferOf(old(rbuf), fd), input).0]
      ensures r == AfterRecv(BufferOf(old(rbuf), fd), input).1
      ensures exists n: nat :: EndsAfter(input, n) && Answers(BufferOf(old(rbuf), fd), input, n, BufferOf(rbuf, fd), r)
    {
      ghost var n := LoopEnds(input);
      TakesEverything(input, n);
      assert Answers(BufferOf(rbuf, fd), input, n, AfterRecv(BufferOf(rbuf, fd), input).0,
                     AfterRecv(BufferOf(rbuf, fd), input).1);
      var acc := if fd in rbuf then rbuf[fd] else [];
      var threw: bool;
      acc, threw := ReadAll(acc, input);
      if threw {
        r := Threw;
      } else {
        acc, r := Decode(acc);
      }
      rbuf := rbuf[fd := acc];
    }

    /** The reading loop. */
    static method ReadAll(acc0: seq<Byte>, input: seq<Read>) returns (acc: seq<Byte>, threw: bool)
      requires ValidReads(input)
      ensures acc == acc0 + Take(input).bytes && threw == Take(input).threw
      ensures exists n: nat :: EndsAfter(input, n) && acc == acc0 + Flatten(Chunks(input[..n]))
                          && (threw <==> n > 0 && IsFault(input[n - 1]))
    {
      ghost var n := LoopEnds(input);
      TakesEverything(input, n);
      acc := acc0;
      var i := 0;
      while i < |input|
        invariant 0 <= i <= |input|
        invariant acc0 + Take(input).bytes == acc + Take(input[i..]).bytes
        invariant Take(input).threw == Take(input[i..]).threw
      {
        match input[i] {
          case WouldBlock => return acc, false;
          case Failed => return acc, true;
          case Fin => return acc, true;
          case Data(bytes) =>
            assert input[i..][1..] == input[i + 1..];
            acc := acc + bytes;
            if |bytes| < READ_SIZE { return acc, false; }
        }
        i := i + 1;
      }
      threw := false;
    }

    /** The decoding loop: frames are cut off the front of the buffer until a header is refused or a
        frame is incomplete; a refusal drops the frames cut so far in this call. */
    static method Decode(acc0: seq<Byte>) returns (acc: seq<Byte>, r: Received)
      ensures var p := Parse(acc0);
              acc == p.rest && r == if p.bad then Threw else Frames(p.frames)
    {
      acc := acc0;
      var frames: seq<Frame> := [];
      ghost var all := Parse(acc0);
      ThenNothing(all);
      while |acc| >= 4
        invariant Then(frames, Parse(acc)) == all
        decreases |acc|
      {
        var head := HeadOf(acc);
        match head {
          case Refused =>
            CutNothing(frames, acc);
            return acc, Threw;
          case Blank =>
            CutBlank(frames, acc);
            acc := acc[4..];
          case More => break;
          case Full(len) =>
            CutFrame(frames, acc, len);
            frames := frames + [acc[4..4 + len]];
            acc := acc[4 + len..];
        }
      }
      CutNothing(frames, acc);
      r := Frames(frames);
    }
  }

  // ---------------------------------------------------------------- sending

  /** How the kernel answers the sends on one descriptor: what the header's `send` returned and what the
      body's calls returned; a list that is used up stands for a failing call. */
  type HeaderSent = n: int | -1 <= n <= 4 witness 0

  datatype Link = Link(headerSent: HeaderSent, sends: seq<int>)

  /** The body's calls together accept `n` bytes before one of them fails. */
  predicate Completes(n: nat, sends: seq<int>)
    decreases |sends|
  {
    n == 0 || (sends != [] && sends[0] > 0 && Completes(if sends[0] <= n then n - sends[0] else 0, sends[1..]))
  }

  /** A payload of `n` bytes is sent without an exception. */
  predicate Delivers(n: nat, link: Link) {
    var len := n % UINT32_RANGE;
    len == 0 || (len <= 16384 && link.headerSent == 4 && Completes(n, link.sends))
  }

  /** The frame as the code writes it: `len` is the size in 32 bits. */
  function OnWire(payload: Frame): seq<Byte> {
    var len := |payload| % UINT32_RANGE;
    if len == 0 then [] else WriteHeader(len) + payload
  }

  lemma OnWireIsEncoded(payload: Frame)
    requires |payload| < UINT32_RANGE
    ensures OnWire(payload) == Encode(payload)
  {
    assert |payload| % UINT32_RANGE == |payload|;
  }

  /** However the kernel splits the body, enough accepting calls send all of it. */
  lemma {:induction false} PartialSendsComplete(n: nat, sends: seq<int>)
    requires |sends| >= n && forall i :: 0 <= i < |sends| ==> sends[i] > 0
    ensures Completes(n, sends)
    decreases |sends|
  {
    if n > 0 { PartialSendsComplete(if sends[0] <= n then n - sends[0] else 0, sends[1..]); }
  }

  /** `send_frame`; `wire` is what the kernel accepted. Whatever it accepts is a prefix of the frame, and
      the call succeeds exactly when that is the whole frame. */
  method SendFrame(payload: Frame, link: Link) returns (ok: bool, wire: seq<Byte>)
    ensures ok <==> Delivers(|payload|, link)
    ensures wire <= OnWire(payload)
    ensures ok <==> wire == OnWire(payload)
    ensures |payload| % UINT32_RANGE > 16384 ==> wire == []
  {
    var len := |payload| % UINT32_RANGE;
    if len == 0 { return true, []; }
    if len > MAX_FRAME_SIZE { return false, []; }
    var header := WriteHeader(len);
    if link.headerSent != 4 {
      wire := header[..if link.headerSent > 0 then link.headerSent else 0];
      PartOfHeader(payload, |wire|);
      return false, wire;
    }
    var total, i := 0, 0;
    while total < |payload|
      invariant total <= |payload| && 0 <= i <= |link.sends|
      invariant Completes(|payload|, link.sends) <==> Completes(|payload| - total, link.sends[i..])
      decreases |payload| - total
    {
      if i == |link.sends| || link.sends[i] <= 0 { break; }
      assert link.sends[i..][1..] == link.sends[i + 1..];
      total := total + if link.sends[i] <= |payload| - total then link.sends[i] else |payload| - total;
      i := i + 1;
    }
    PartOfBody(payload, total);
    ok, wire := total == |payload|, header + payload[..total];
  }

  lemma PartOfHeader(payload: Frame, n: nat)
    requires |payload| % UINT32_RANGE != 0 && n < 4
    ensures var wire := WriteHeader(|payload| % UINT32_RANGE)[..n];
            wire <= OnWire(payload) && wire != OnWire(payload)
  {
    assert OnWire(payload)[..n] == WriteHeader(|payload| % UINT32_RANGE)[..n];
  }

  lemma PartOfBody(payload: Frame, total: nat)
    requires |payload| % UINT32_RANGE != 0 && total <= |payload|
    ensures var wire := WriteHeader(|payload| % UINT32_RANGE) + payload[..total];
            wire <= OnWire(payload) && (wire == OnWire(payload) <==> total == |payload|)
  {
    var header := WriteHeader(|payload| % UINT32_RANGE);
    assert (header + payload)[..4 + total] == header + payload[..total];
    if total == |payload| { assert payload[..total] == payload; }
  }

  /** One more payload behind what is already on the wire. */
  lemma SentOne(payloads: seq<Frame>, k: nat, wire: seq<Byte>, more: seq<Byte>)
    requires k < |payloads| && |payloads[k]| < UINT32_RANGE
    requires wire + EncodeAll(payloads[k..]) == EncodeAll(payloads) && more <= OnWire(payloads[k])
    ensures wire + more <= EncodeAll(payloads) && (more != OnWire(payloads[k]) ==> wire + more != EncodeAll(payloads))
    ensures more == OnWire(payloads[k]) ==> (wire + more) + EncodeAll(payloads[k + 1..]) == EncodeAll(payloads)
  {
    OnWireIsEncoded(payloads[k]);
    var one, later := Encode(payloads[k]), EncodeAll(payloads[k + 1..]);
    assert payloads[k..][1..] == payloads[k + 1..];
    PartOfNext(wire, more, one, later);
  }

  /** `send_frame` for one payload after the other on one connection, given up at the first exception. */
  method SendAll(payloads: seq<Frame>, links: seq<Link>) returns (ok: bool, wire: seq<Byte>)
    requires Sendable(payloads) && |links| == |payloads|
    ensures ok <==> forall i :: 0 <= i < |payloads| ==> Delivers(|payloads[i]|, links[i])
    ensures wire <= EncodeAll(payloads)
    ensures ok <==> wire == EncodeAll(payloads)
  {
    ok, wire := true, [];
    for k := 0 to |payloads|
      invariant ok && forall i :: 0 <= i < k ==> Delivers(|payloads[i]|, links[i])
      invariant wire + EncodeAll(payloads[k..]) == EncodeAll(payloads)
    {
      var more: seq<Byte>;
      ok, more := SendFrame(payloads[k], links[k]);
      SentOne(payloads, k, wire, more);
      wire := wire + more;
      if !ok { return; }
    }
  }

  predicate Distinct(clients: seq<Fd>) {
    forall i, j :: 0 <= i < j < |clients| ==> clients[i] != clients[j]
  }

  /** What a broadcast to `clients` leaves behind. */
  ghost predicate Outcome(clients: seq<Fd>, payload: Frame, links: Fd -> Link, failed: seq<Fd>, wires: map<Fd, seq<Byte>>) {
    && (forall fd :: fd in failed <==> fd in clients && !Delivers(|payload|, links(fd)))
    && (forall fd :: fd in wires <==> fd in clients)
    && (forall fd :: fd in wires ==> wires[fd] <= OnWire(payload))
    && (forall fd :: fd in wires ==> (fd in failed <==> wires[fd] != OnWire(payload)))
  }

  lemma OutcomeStep(clients: seq<Fd>, payload: Frame, links: Fd -> Link, failed: seq<Fd>, wires: map<Fd, seq<Byte>>,
                    fd: Fd, ok: bool, wire: seq<Byte>)
    requires Outcome(clients, payload, links, failed, wires) && fd !in clients
    requires (ok <==> Delivers(|payload|, links(fd))) && wire <= OnWire(payload)
    requires ok <==> wire == OnWire(payload)
    ensures Outcome(clients + [fd], payload, links, if ok then failed else failed + [fd], wires[fd := wire])
  {
  }

  lemma NotBefore(clients: seq<Fd>, k: nat)
    requires Distinct(clients) && k < |clients|
    ensures clients[k] !in clients[..k] && clients[..k + 1] == clients[..k] + [clients[k]]
  {
  }

  /** `broadcast` over the tracked clients in iteration order: a failing client does not stop the others,
      and exactly the clients whose frame did not go out are returned. */
  method Broadcast(clients: seq<Fd>, payload: Frame, links: Fd -> Link)
    returns (failed: seq<Fd>, wires: map<Fd, seq<Byte>>)
    requires Distinct(clients)
    ensures Outcome(clients, payload, links, failed, wires)
  {
    failed, wires := [], map[];
    for k := 0 to |clients|
      invariant Outcome(clients[..k], payload, links, failed, wires)
    {
      var fd := clients[k];
      var ok, wire := SendFrame(payload, links(fd));
      NotBefore(clients, k);
      OutcomeStep(clients[..k], payload, links, failed, wires, fd, ok, wire);
      wires := wires[fd := wire];
      if !ok { failed := failed + [fd]; }
    }
    assert clients[..|clients|] == clients;
  }

  // ---------------------------------------------------------------- whole runs

  datatype Call = Recv(fd: Fd, input: seq<Read>) | Clear(fd: Fd)

  function StepBuffers(rbuf: Buffers, call: Call): Buffers {
    match call
    case Recv(fd, input) => rbuf[fd := AfterRecv(BufferOf(rbuf, fd), input).0]
    case Clear(fd) => rbuf - {fd}
  }

  /** The buffers after a sequence of calls for any mixture of descriptors. */
  function RunBuffers(calls: seq<Call>): Buffers {
    if calls == [] then map[] else StepBuffers(RunBuffers(calls[..|calls| - 1]), calls[|calls| - 1])
  }

  /** What has happened on one descriptor since its buffer was last cleared. */
  datatype History = History(bytes: seq<Byte>, delivered: seq<Frame>, threw: bool)

  function HistoryOf(calls: seq<Call>, fd: Fd): History {
    if calls == [] then History([], [], false)
    else
      var before, last := calls[..|calls| - 1], calls[|calls| - 1];
      var h := HistoryOf(before, fd);
      if last.fd != fd then h
      else
        match last
        case Clear(_) => History([], [], false)
        case Recv(_, input) =>
          var r := AfterRecv(BufferOf(RunBuffers(before), fd), input).1;
          History(h.bytes + Take(input).bytes,
                  h.delivered + (if r.Frames? then r.frames else []),
                  h.threw || r.Threw?)
  }

  lemma OneMoreCall(calls: seq<Call>, k: nat)
    requires k < |calls|
    ensures calls[..k + 1][..k] == calls[..k] && calls[..k + 1][k] == calls[k]
  {
  }

  /** These calls on one object, which end with the buffers and the history of the run; `fd` is any
      descriptor one may ask about. */
  method RunCalls(comm: Communication, calls: seq<Call>, fd: Fd) returns (delivered: seq<Frame>, threw: bool)
    requires comm.rbuf == map[]
    requires forall k :: 0 <= k < |calls| && calls[k].Recv? ==> ValidReads(calls[k].input)
    modifies comm
    ensures comm.rbuf == RunBuffers(calls)
    ensures delivered == HistoryOf(calls, fd).delivered && threw == HistoryOf(calls, fd).threw
  {
    delivered, threw := [], false;
    for k := 0 to |calls|
      invariant comm.rbuf == RunBuffers(calls[..k])
      invariant delivered == HistoryOf(calls[..k], fd).delivered && threw == HistoryOf(calls[..k], fd).threw
    {
      OneMoreCall(calls, k);
      match calls[k] {
        case Clear(f) =>
          comm.ClearBuffer(f);
          if f == fd { delivered, threw := [], false; }
        case Recv(f, input) =>
          var r := comm.RecvFrame(f, input);
          if f == fd {
            if r.Frames? { delivered := delivered + r.frames; }
            threw := threw || r.Threw?;
          }
      }
    }
    assert calls[..|calls|] == calls;
  }

  /** Segmentation does not matter: as long as no call for `fd` threw, the frames delivered since the
      last `clear_buffer` are those of one parse of all its bytes, the buffer is the unconsumed tail,
      and other descriptors play no part. */
  lemma {:induction false} SegmentationIndependence(calls: seq<Call>, fd: Fd)
    requires !HistoryOf(calls, fd).threw
    ensures var h := HistoryOf(calls, fd);
            Parse(h.bytes) == Parsed(h.delivered, BufferOf(RunBuffers(calls), fd), false)
  {
    if calls != [] {
      var before, last := calls[..|calls| - 1], calls[|calls| - 1];
      if last.fd == fd && last.Clear? {
      } else {
        SegmentationIndependence(before, fd);
        if last.fd == fd { ParseAppend(HistoryOf(before, fd).bytes, Take(last.input).bytes); }
      }
    }
  }

  /** When a call throws, what was delivered before is a prefix of the frames of all the bytes. */
  lemma DeliveredIsPrefix(calls: seq<Call>, fd: Fd, input: seq<Read>)
    requires !HistoryOf(calls, fd).threw && HistoryOf(calls + [Recv(fd, input)], fd).threw
    ensures HistoryOf(calls, fd).delivered <= Parse(HistoryOf(calls + [Recv(fd, input)], fd).bytes).frames
    ensures HistoryOf(calls + [Recv(fd, input)], fd).delivered == HistoryOf(calls, fd).delivered
  {
    SegmentationIndependence(calls, fd);
    var all := calls + [Recv(fd, input)];
    assert all[..|all| - 1] == calls;
    ParseAppend(HistoryOf(calls, fd).bytes, Take(input).bytes);
  }

  /** No read of this descriptor reports an error or the end of the stream. */
  predicate CleanReads(calls: seq<Call>, fd: Fd) {
    forall k :: 0 <= k < |calls| && calls[k].Recv? && calls[k].fd == fd ==>
      forall j :: 0 <= j < |calls[k].input| ==> !calls[k].input[j].Failed? && !calls[k].input[j].Fin?
  }

  lemma {:induction false} CleanTake(input: seq<Read>)
    requires forall j :: 0 <= j < |input| ==> !input[j].Failed? && !input[j].Fin?
    ensures !Take(input).threw
  {
    if input != [] && input[0].Data? { CleanTake(input[1..]); }
  }

  /** With clean reads a descriptor's calls throw exactly when its bytes hold a refused header, wherever
      they were cut: no prefix of acceptable bytes is ever refused. */
  lemma {:induction false} ThrowsExactly(calls: seq<Call>, fd: Fd)
    requires CleanReads(calls, fd)
    ensures HistoryOf(calls, fd).threw <==> Parse(HistoryOf(calls, fd).bytes).bad
  {
    if !HistoryOf(calls, fd).threw { SegmentationIndependence(calls, fd); }
    if calls != [] {
      var before, last := calls[..|calls| - 1], calls[|calls| - 1];
      ThrowsExactly(before, fd);
      if last.fd == fd && last.Recv? && !Parse(HistoryOf(calls, fd).bytes).bad {
        var h := HistoryOf(before, fd);
        CleanTake(last.input);
        ParseAppend(h.bytes, Take(last.input).bytes);
        SegmentationIndependence(before, fd);
      }
    }
  }

  // ---------------------------------------------------------------- the bytes of the kernel

  /** The lists of this descriptor's calls hold exactly the results their loops asked for. */
  predicate WholeReads(calls: seq<Call>, fd: Fd) {
    forall k :: 0 <= k < |calls| && calls[k].Recv? && calls[k].fd == fd ==>
      ValidReads(calls[k].input) && EndsAfter(calls[k].input, |calls[k].input|)
  }

  /** What the kernel has handed over for a descriptor since its buffer was last cleared. */
  function RawBytes(calls: seq<Call>, fd: Fd): seq<Byte> {
    if calls == [] then []
    else
      var before, last := calls[..|calls| - 1], calls[|calls| - 1];
      if last.fd != fd then RawBytes(before, fd)
      else if last.Clear? then []
      else RawBytes(before, fd) + Flatten(Chunks(last.input))
  }

  lemma WholeBefore(calls: seq<Call>, fd: Fd)
    requires calls != [] && WholeReads(calls, fd)
    ensures WholeReads(calls[..|calls| - 1], fd)
  {
    var before := calls[..|calls| - 1];
    assert forall k :: 0 <= k < |before| ==> before[k] == calls[k];
  }

  lemma {:induction false} NothingIsLost(calls: seq<Call>, fd: Fd)
    requires WholeReads(calls, fd)
    ensures HistoryOf(calls, fd).bytes == RawBytes(calls, fd)
  {
    if calls != [] {
      var last := calls[|calls| - 1];
      WholeBefore(calls, fd);
      NothingIsLost(calls[..|calls| - 1], fd);
      if last.fd == fd && last.Recv? {
        TakesEverything(last.input, |last.input|);
        assert last.input[..|last.input|] == last.input;
      }
    }
  }

  /** A read since the last `clear_buffer` failed or found the end of the stream. */
  predicate Faulted(calls: seq<Call>, fd: Fd) {
    if calls == [] then false
    else
      var before, last := calls[..|calls| - 1], calls[|calls| - 1];
      if last.fd != fd then Faulted(before, fd)
      else last.Recv? && (Faulted(before, fd) || exists j :: 0 <= j < |last.input| && IsFault(last.input[j]))
  }

  lemma LastFaults(input: seq<Read>)
    requires ValidReads(input) && EndsAfter(input, |input|)
    ensures Take(input).bytes == Flatten(Chunks(input))
    ensures Take(input).threw <==> exists j :: 0 <= j < |input| && IsFault(input[j])
  {
    TakesEverything(input, |input|);
    assert input[..|input|] == input;
    if j :| 0 <= j < |input| && IsFault(input[j]) { assert !IsFull(input[j]) && j == |input| - 1; }
  }

  /** A descriptor's calls throw exactly when the kernel reported a fault or its bytes hold a refused header,
      wherever they were cut. */
  lemma {:induction false} RawThrowsExactly(calls: seq<Call>, fd: Fd)
    requires WholeReads(calls, fd)
    ensures HistoryOf(calls, fd).threw <==> Faulted(calls, fd) || Parse(RawBytes(calls, fd)).bad
  {
    NothingIsLost(calls, fd);
    if !HistoryOf(calls, fd).threw { SegmentationIndependence(calls, fd); }
    if calls != [] {
      var before, last := calls[..|calls| - 1], calls[|calls| - 1];
      WholeBefore(calls, fd);
      RawThrowsExactly(before, fd);
      if last.fd == fd && last.Recv? {
        LastFaults(last.input);
        NothingIsLost(before, fd);
        if !HistoryOf(before, fd).threw {
          if !Take(last.input).threw { OneMoreRead(calls, fd); }
        } else {
          ParseAppend(RawBytes(before, fd), Flatten(Chunks(last.input)));
        }
      }
    }
  }

  /** A read without a fault throws exactly when the bytes up to it hold a refused header. */
  lemma OneMoreRead(calls: seq<Call>, fd: Fd)
    requires calls != [] && calls[|calls| - 1].Recv? && calls[|calls| - 1].fd == fd
    requires !Take(calls[|calls| - 1].input).threw && !HistoryOf(calls[..|calls| - 1], fd).threw
    ensures HistoryOf(calls, fd).threw <==> Parse(HistoryOf(calls, fd).bytes).bad
  {
    var before := calls[..|calls| - 1];
    SegmentationIndependence(before, fd);
    ParseAppend(HistoryOf(before, fd).bytes, Take(calls[|calls| - 1].input).bytes);
  }

  /** End to end: whatever the cuts, once the kernel has handed over exactly what the server's or a client's
      sender wrote for `payloads`, without a fault, no call has thrown, the non-empty payloads have been
      delivered in order, and nothing is kept back. */
  lemma {:induction false} EndToEnd(calls: seq<Call>, fd: Fd, payloads: seq<Frame>)
    requires Sendable(payloads) && WholeReads(calls, fd) && !Faulted(calls, fd)
    requires RawBytes(calls, fd) == EncodeAll(payloads) || RawBytes(calls, fd) == ClientEncodeAll(payloads)
    ensures !HistoryOf(calls, fd).threw
    ensures HistoryOf(calls, fd).delivered == NonEmpty(payloads)
    ensures BufferOf(RunBuffers(calls), fd) == []
  {
    RoundTrip(payloads);
    ClientToServer(payloads);
    RawThrowsExactly(calls, fd);
    NothingIsLost(calls, fd);
    SegmentationIndependence(calls, fd);
  }

  lemma PrefixParses(got: seq<Byte>, all: seq<Byte>)
    requires got <= all && !Parse(all).bad
    ensures !Parse(got).bad && Parse(got).frames <= Parse(all).frames
  {
    assert all == got + all[|got|..];
    ParseAppend(got, all[|got|..]);
  }

  /** A sender that was cut off after any byte: what arrives is a prefix of what was to be sent, and no
      receiver call throws on account of it. */
  lemma {:induction false} CutOffArrives(calls: seq<Call>, fd: Fd, payloads: seq<Frame>)
    requires Sendable(payloads) && WholeReads(calls, fd) && !Faulted(calls, fd)
    requires RawBytes(calls, fd) <= EncodeAll(payloads) || RawBytes(calls, fd) <= ClientEncodeAll(payloads)
    ensures !HistoryOf(calls, fd).threw
    ensures HistoryOf(calls, fd).delivered <= NonEmpty(payloads)
  {
    var got := RawBytes(calls, fd);
    var all := if got <= EncodeAll(payloads) then EncodeAll(payloads) else ClientEncodeAll(payloads);
    RoundTrip(payloads);
    ClientToServer(payloads);
    PrefixParses(got, all);
    RawThrowsExactly(calls, fd);
    NothingIsLost(calls, fd);
    SegmentationIndependence(calls, fd);
  }
}
