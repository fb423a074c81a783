/** `AsThrottle` and the lobby timeout it drives: how far apart throttled executions are, and when a
    client that never joins a channel is marked for deletion. */
module LobbyTimeout {
  import opened Collections
  import P = ChannelProtocol

  type Fd = int

  const LOBBY_LIMIT: nat := 5000
  const LOBBY_PERIOD: nat := 1000

  // ---------------------------------------------------------------- AsThrottle

  /** `now - last < timeout` in unsigned 64-bit arithmetic, negated. */
  predicate Due(last: nat, now: nat, timeout: nat) {
    P.ClockSub(now, last) >= timeout
  }

  /** The clock readings at which the wrapped function runs. */
  function Executions(last: nat, timeout: nat, readings: seq<nat>): seq<nat>
    decreases |readings|
  {
    if readings == [] then []
    else if Due(last, readings[0], timeout) then [readings[0]] + Executions(readings[0], timeout, readings[1..])
    else Executions(last, timeout, readings[1..])
  }

  /** The mutable lambda: `last` is its captured variable. */
  class Throttle {
    const timeout: nat
    var last: nat

    constructor (timeout: nat)
      ensures this.timeout == timeout && last == 0
    {
      this.timeout := timeout;
      last := 0;
    }

    method Call(now: nat) returns (run: bool)
      modifies this
      ensures run <==> Due(old(last), now, timeout)
      ensures last == if run then now else old(last)
    {
      if P.ClockSub(now, last) < timeout { return false; }
      last := now;
      run := true;
    }
  }

  predicate Nondecreasing(ts: seq<nat>) {
    forall i, j :: 0 <= i < j < |ts| ==> ts[i] <= ts[j]
  }

  lemma {:induction false} EveryExecutionIsLate(last: nat, timeout: nat, readings: seq<nat>, i: nat)
    requires Nondecreasing(readings) && forall k :: 0 <= k < |readings| ==> last <= readings[k]
    requires i < |Executions(last, timeout, readings)|
    ensures Executions(last, timeout, readings)[i] - last >= (i + 1) * timeout
    decreases |readings|
  {
    var rest := readings[1..];
    assert forall k :: 0 <= k < |rest| ==> rest[k] == readings[k + 1];
    if Due(last, readings[0], timeout) {
      if i > 0 {
        EveryExecutionIsLate(readings[0], timeout, rest, i - 1);
        assert (i + 1) * timeout == i * timeout + timeout;
      }
    } else {
      EveryExecutionIsLate(last, timeout, rest, i);
    }
  }

  lemma {:induction false} ExecutionsResume(last: nat, timeout: nat, readings: seq<nat>, i: nat) returns (later: seq<nat>)
    requires Nondecreasing(readings) && i < |Executions(last, timeout, readings)|
    ensures Nondecreasing(later)
    ensures var e := Executions(last, timeout, readings);
            e[i + 1..] == Executions(e[i], timeout, later) && forall k :: 0 <= k < |later| ==> e[i] <= later[k]
    decreases |readings|
  {
    var rest := readings[1..];
    assert forall k :: 0 <= k < |rest| ==> rest[k] == readings[k + 1];
    if !Due(last, readings[0], timeout) {
      later := ExecutionsResume(last, timeout, rest, i);
    } else if i == 0 {
      later := rest;
    } else {
      later := ExecutionsResume(readings[0], timeout, rest, i - 1);
      var e := Executions(readings[0], timeout, rest);
      assert ([readings[0]] + e)[i + 1..] == e[i..];
    }
  }

  /** With a nondecreasing clock, `k` consecutive executions span at least `(k - 1) * timeout`. */
  lemma ExecutionsSpread(last: nat, timeout: nat, readings: seq<nat>, i: nat, j: nat)
    requires Nondecreasing(readings) && i <= j < |Executions(last, timeout, readings)|
    ensures var e := Executions(last, timeout, readings); e[j] - e[i] >= (j - i) * timeout
  {
    var e := Executions(last, timeout, readings);
    if i < j {
      var later := ExecutionsResume(last, timeout, readings, i);
      assert e[j] == e[i + 1..][j - i - 1];
      EveryExecutionIsLate(e[i], timeout, later, j - i - 1);
    }
  }

  // ---------------------------------------------------------------- check_lobby

  function StillWaiting(lastAct: map<Fd, nat>, now: nat): map<Fd, nat> {
    map fd | fd in lastAct && now < lastAct[fd] + 5000 :: lastAct[fd]
  }

  function TimedOut(lastAct: map<Fd, nat>, now: nat): set<Fd> {
    set fd | fd in lastAct && now >= lastAct[fd] + 5000
  }

  lemma IsRebuilt(lastAct: map<Fd, nat>, now: nat, kept: map<Fd, nat>, expired: set<Fd>)
    requires forall fd :: fd in kept <==> fd in lastAct && now < lastAct[fd] + 5000
    requires forall fd :: fd in kept ==> kept[fd] == lastAct[fd]
    requires forall fd :: fd in expired <==> fd in lastAct && now >= lastAct[fd] + 5000
    ensures kept == StillWaiting(lastAct, now) && expired == TimedOut(lastAct, now)
  {
    var waiting := StillWaiting(lastAct, now);
    assert forall fd :: fd in kept.Keys <==> fd in waiting.Keys;
    forall k: Fd | k in kept ensures kept[k] == waiting[k] {}
    SameMap(kept, waiting);
    assert forall fd :: fd in expired <==> fd in TimedOut(lastAct, now);
  }

  /** The loop over `last_act`, which is rebuilt from the entries that have not expired. */
  method CheckLobby(lastAct: map<Fd, nat>, now: nat) returns (kept: map<Fd, nat>, expired: set<Fd>)
    ensures kept == StillWaiting(lastAct, now) && expired == TimedOut(lastAct, now)
  {
    kept, expired := map[], {};
    var todo := lastAct.Keys;
    while todo != {}
      invariant todo <= lastAct.Keys
      invariant forall fd :: fd in kept <==> fd in lastAct && fd !in todo && now < lastAct[fd] + LOBBY_LIMIT
      invariant forall fd :: fd in kept ==> kept[fd] == lastAct[fd]
      invariant forall fd :: fd in expired <==> fd in lastAct && fd !in todo && now >= lastAct[fd] + LOBBY_LIMIT
      decreases |todo|
    {
      var fd := NextOf(todo);
      todo := todo - {fd};
      if now - lastAct[fd] < LOBBY_LIMIT {
        kept := kept[fd := lastAct[fd]];
      } else {
        expired := expired + {fd};
      }
    }
    IsRebuilt(lastAct, now, kept, expired);
  }

  // ---------------------------------------------------------------- the lobby over many ticks

  /** One tick of the lobby: who was accepted and who joined a channel since the last check, and the
      readings of the two clocks, the wall clock of the throttle and the steady one of `check_lobby`. */
  datatype LobbyTick = LobbyTick(arrived: map<Fd, nat>, joined: set<Fd>, wall: nat, steady: nat)

  datatype LobbyState = LobbyState(last: nat, lastAct: map<Fd, nat>, marked: set<Fd>)

  function AfterTick(s: LobbyState, k: LobbyTick): LobbyState {
    var acts := (s.lastAct - k.joined) + k.arrived;
    if Due(s.last, k.wall, 1000) then LobbyState(k.wall, StillWaiting(acts, k.steady), TimedOut(acts, k.steady))
    else LobbyState(s.last, acts, {})
  }

  /** The part of the server that the throttled task works on; `marked` is what it puts into
      `next_deletion` in the current tick. */
  class Lobby {
    const throttle: Throttle
    var lastAct: map<Fd, nat>
    var marked: set<Fd>

    ghost function View(): LobbyState
      reads this, throttle
    {
      LobbyState(throttle.last, lastAct, marked)
    }

    constructor ()
      ensures View() == LobbyState(0, map[], {}) && throttle.timeout == 1000 && fresh(throttle)
    {
      throttle := new Throttle(LOBBY_PERIOD);
      lastAct, marked := map[], {};
    }

    method Tick(k: LobbyTick)
      requires throttle.timeout == LOBBY_PERIOD
      modifies this, throttle
      ensures View() == AfterTick(old(View()), k)
    {
      marked := {};
      lastAct := (lastAct - k.joined) + k.arrived;
      var run := throttle.Call(k.wall);
      if run { lastAct, marked := CheckLobby(lastAct, k.steady); }
    }
  }

  /** The steady reading of the first tick that marks `fd`. */
  function MarkTime(s: LobbyState, ticks: seq<LobbyTick>, fd: Fd): Option<nat>
    decreases |ticks|
  {
    if ticks == [] then None
    else
      var next := AfterTick(s, ticks[0]);
      if fd in next.marked then Some(ticks[0].steady) else MarkTime(next, ticks[1..], fd)
  }

  predicate NeverMoves(ticks: seq<LobbyTick>, fd: Fd) {
    forall i :: 0 <= i < |ticks| ==> fd !in ticks[i].arrived && fd !in ticks[i].joined
  }

  // ---------------------------------------------------------------- exactly when a client is marked

  /** The throttle's memory after one tick. */
  function NextMemory(last: nat, k: LobbyTick): nat {
    if Due(last, k.wall, 1000) then k.wall else last
  }

  /** The throttle's memory after some ticks: their wall clocks alone decide it. */
  function Memory(last: nat, ticks: seq<LobbyTick>): nat
    decreases |ticks|
  {
    if ticks == [] then last
    else Memory(NextMemory(last, ticks[0]), ticks[1..])
  }

  /** The check runs in tick `i`. */
  predicate Runs(last: nat, ticks: seq<LobbyTick>, i: nat)
    requires i < |ticks|
  {
    Due(Memory(last, ticks[..i]), ticks[i].wall, 1000)
  }

  /** The entry of `fd` in `last_act` after the arrivals and joins of these ticks, as long as no check
      removes it. */
  function Entry(e: Option<nat>, ticks: seq<LobbyTick>, fd: Fd): Option<nat>
    decreases |ticks|
  {
    if ticks == [] then e
    else
      var k := ticks[0];
      Entry(if fd in k.arrived then Some(k.arrived[fd]) else if fd in k.joined then None else e, ticks[1..], fd)
  }

  function EntryOf(lastAct: map<Fd, nat>, fd: Fd): Option<nat> {
    if fd in lastAct then Some(lastAct[fd]) else None
  }

  /** The check runs in tick `i` and finds an entry of `fd` that has reached its limit. */
  predicate Expires(last: nat, e: Option<nat>, ticks: seq<LobbyTick>, fd: Fd, i: nat) {
    i < |ticks| && Runs(last, ticks, i)
    && var a := Entry(e, ticks[..i + 1], fd); a.Some? && ticks[i].steady >= a.value + 5000
  }

  function Walls(ticks: seq<LobbyTick>): seq<nat> {
    seq(|ticks|, i requires 0 <= i < |ticks| => ticks[i].wall)
  }

  /** The throttle remembers its last execution. */
  lemma {:induction false} MemoryIsLastExecution(last: nat, ticks: seq<LobbyTick>)
    ensures var e := Executions(last, 1000, Walls(ticks));
            Memory(last, ticks) == if e == [] then last else e[|e| - 1]
    decreases |ticks|
  {
    if ticks != [] {
      var next := NextMemory(last, ticks[0]);
      MemoryIsLastExecution(next, ticks[1..]);
      assert Walls(ticks)[1..] == Walls(ticks[1..]);
    }
  }

  lemma RunsLater(last: nat, ticks: seq<LobbyTick>, i: nat)
    requires 0 < i < |ticks|
    ensures Runs(last, ticks, i) <==> Runs(NextMemory(last, ticks[0]), ticks[1..], i - 1)
  {
    assert ticks[..i][1..] == ticks[1..][..i - 1] && ticks[..i][0] == ticks[0];
  }

  lemma ExpiresLater(last: nat, e: Option<nat>, ticks: seq<LobbyTick>, fd: Fd, i: nat)
    requires 0 < i < |ticks|
    ensures Expires(last, e, ticks, fd, i)
            <==> Expires(NextMemory(last, ticks[0]), Entry(e, ticks[..1], fd), ticks[1..], fd, i - 1)
  {
    RunsLater(last, ticks, i);
    assert ticks[..i + 1][1..] == ticks[1..][..i] && ticks[..1][1..] == [];
  }

  /** The first tick whose check finds such an entry. */
  ghost predicate FirstExpiry(last: nat, e: Option<nat>, ticks: seq<LobbyTick>, fd: Fd, i: nat) {
    Expires(last, e, ticks, fd, i) && forall j: nat :: j < i ==> !Expires(last, e, ticks, fd, j)
  }

  lemma FirstIsUnique(last: nat, e: Option<nat>, ticks: seq<LobbyTick>, fd: Fd, i: nat, k: nat)
    requires FirstExpiry(last, e, ticks, fd, i) && FirstExpiry(last, e, ticks, fd, k)
    ensures i == k
  {
  }

  ghost predicate NoExpiry(last: nat, e: Option<nat>, ticks: seq<LobbyTick>, fd: Fd) {
    forall j: nat :: !Expires(last, e, ticks, fd, j)
  }

  /** What the later ticks decide when the first one does not. */
  lemma DecidedLater(last: nat, e: Option<nat>, ticks: seq<LobbyTick>, fd: Fd, i: nat)
    requires ticks != [] && !Expires(last, e, ticks, fd, 0)
    ensures var next, later := NextMemory(last, ticks[0]), Entry(e, ticks[..1], fd);
            && (NoExpiry(next, later, ticks[1..], fd) ==> NoExpiry(last, e, ticks, fd))
            && (FirstExpiry(next, later, ticks[1..], fd, i) ==> FirstExpiry(last, e, ticks, fd, i + 1))
  {
    var next, later := NextMemory(last, ticks[0]), Entry(e, ticks[..1], fd);
    forall j: nat | 0 < j < |ticks|
      ensures Expires(last, e, ticks, fd, j) <==> Expires(next, later, ticks[1..], fd, j - 1)
    {
      ExpiresLater(last, e, ticks, fd, j);
    }
  }

  lemma FirstTick(s: LobbyState, ticks: seq<LobbyTick>, fd: Fd)
    requires ticks != []
    ensures var next := AfterTick(s, ticks[0]);
            && next.last == NextMemory(s.last, ticks[0])
            && (fd in next.marked <==> Expires(s.last, EntryOf(s.lastAct, fd), ticks, fd, 0))
            && (fd !in next.marked ==> EntryOf(next.lastAct, fd) == Entry(EntryOf(s.lastAct, fd), ticks[..1], fd))
  {
    var acts := (s.lastAct - ticks[0].joined) + ticks[0].arrived;
    assert ticks[..1][1..] == [] && ticks[..0] == [] && ticks[..0 + 1] == ticks[..1];
    assert Entry(EntryOf(s.lastAct, fd), ticks[..1], fd) == EntryOf(acts, fd);
    assert Runs(s.last, ticks, 0) <==> Due(s.last, ticks[0].wall, LOBBY_PERIOD);
  }

  lemma {:induction false} MarkedAt(s: LobbyState, ticks: seq<LobbyTick>, fd: Fd) returns (i: nat)
    ensures MarkTime(s, ticks, fd).None? ==> NoExpiry(s.last, EntryOf(s.lastAct, fd), ticks, fd)
    ensures MarkTime(s, ticks, fd).Some? ==>
              FirstExpiry(s.last, EntryOf(s.lastAct, fd), ticks, fd, i)
              && MarkTime(s, ticks, fd).value == ticks[i].steady
    decreases |ticks|
  {
    i := 0;
    if ticks != [] {
      FirstTick(s, ticks, fd);
      var next := AfterTick(s, ticks[0]);
      if fd !in next.marked {
        var k := MarkedAt(next, ticks[1..], fd);
        DecidedLater(s.last, EntryOf(s.lastAct, fd), ticks, fd, k);
        i := k + 1;
      }
    }
  }

  /** For any readings of the two clocks and any arrivals and joins: a client is never marked exactly when
      no tick runs the check on an entry of it that has reached its limit, and otherwise it is marked in
      the first such tick. */
  lemma MarkedExactly(s: LobbyState, ticks: seq<LobbyTick>, fd: Fd)
    ensures MarkTime(s, ticks, fd).None? <==> NoExpiry(s.last, EntryOf(s.lastAct, fd), ticks, fd)
    ensures forall i: nat :: FirstExpiry(s.last, EntryOf(s.lastAct, fd), ticks, fd, i) ==>
                               MarkTime(s, ticks, fd) == Some(ticks[i].steady)
  {
    var e := EntryOf(s.lastAct, fd);
    var k := MarkedAt(s, ticks, fd);
    forall i: nat | FirstExpiry(s.last, e, ticks, fd, i) ensures MarkTime(s, ticks, fd) == Some(ticks[i].steady) {
      assert Expires(s.last, e, ticks, fd, i);
      if MarkTime(s, ticks, fd).Some? { FirstIsUnique(s.last, e, ticks, fd, i, k); }
    }
  }

  // ---------------------------------------------------------------- clients that stay, clients that join

  lemma {:induction false} EntryStays(e: Option<nat>, ticks: seq<LobbyTick>, fd: Fd)
    requires NeverMoves(ticks, fd)
    ensures Entry(e, ticks, fd) == e
    decreases |ticks|
  {
    if ticks != [] {
      assert forall i :: 0 <= i < |ticks[1..]| ==> ticks[1..][i] == ticks[i + 1];
      EntryStays(e, ticks[1..], fd);
    }
  }

  /** A client that stays is marked by the first check at or after its limit. */
  lemma StayingExpires(last: nat, a: nat, ticks: seq<LobbyTick>, fd: Fd, i: nat)
    requires NeverMoves(ticks, fd)
    ensures Expires(last, Some(a), ticks, fd, i)
            <==> i < |ticks| && Runs(last, ticks, i) && ticks[i].steady >= a + 5000
  {
    if i < |ticks| { EntryStays(Some(a), ticks[..i + 1], fd); }
  }

  /** No client is marked before its 5000 ms, whatever the two clocks do. */
  lemma NeverTooEarly(s: LobbyState, ticks: seq<LobbyTick>, fd: Fd)
    requires NeverMoves(ticks, fd) && fd in s.lastAct && MarkTime(s, ticks, fd).Some?
    ensures MarkTime(s, ticks, fd).value >= s.lastAct[fd] + 5000
  {
    var k := MarkedAt(s, ticks, fd);
    StayingExpires(s.last, s.lastAct[fd], ticks, fd, k);
  }

  lemma {:induction false} NoEntry(ticks: seq<LobbyTick>, fd: Fd)
    requires forall i :: 0 <= i < |ticks| ==> fd !in ticks[i].arrived
    ensures Entry(None, ticks, fd) == None
    decreases |ticks|
  {
    if ticks != [] {
      assert forall i :: 0 <= i < |ticks[1..]| ==> ticks[1..][i] == ticks[i + 1];
      NoEntry(ticks[1..], fd);
    }
  }

  /** A client that joins a channel is never marked by the lobby while it does not come back. */
  lemma JoinedIsNotMarked(s: LobbyState, ticks: seq<LobbyTick>, fd: Fd)
    requires fd !in s.lastAct && forall i :: 0 <= i < |ticks| ==> fd !in ticks[i].arrived
    ensures MarkTime(s, ticks, fd) == None
  {
    forall i: nat ensures !Expires(s.last, None, ticks, fd, i) {
      if i < |ticks| { NoEntry(ticks[..i + 1], fd); }
    }
    MarkedExactly(s, ticks, fd);
  }

  // ---------------------------------------------------------------- clocks that keep together

  function Before(prev: nat, ticks: seq<LobbyTick>, i: nat): nat
    requires i <= |ticks|
  {
    if i == 0 then prev else ticks[i - 1].steady
  }

  /** Steady readings start at `prev`, never go back and are at most `gap` apart, and each wall reading is
      `lo` to `hi` ahead of the steady one of its tick. */
  predicate Paced(prev: nat, ticks: seq<LobbyTick>, gap: nat, lo: int, hi: int) {
    forall i :: 0 <= i < |ticks| ==> PacedAt(prev, ticks, gap, lo, hi, i)
  }

  predicate PacedAt(prev: nat, ticks: seq<LobbyTick>, gap: nat, lo: int, hi: int, i: nat)
    requires i < |ticks|
  {
    && Before(prev, ticks, i) <= ticks[i].steady <= Before(prev, ticks, i) + gap
    && ticks[i].steady + lo <= ticks[i].wall <= ticks[i].steady + hi
    && ticks[i].wall < P.CLOCK_RANGE
  }

  lemma {:induction false} PacedIsSorted(prev: nat, ticks: seq<LobbyTick>, gap: nat, lo: int, hi: int, i: nat, j: nat)
    requires Paced(prev, ticks, gap, lo, hi) && i <= j < |ticks|
    ensures ticks[i].steady <= ticks[j].steady
  {
    if i < j {
      PacedIsSorted(prev, ticks, gap, lo, hi, i, j - 1);
      assert PacedAt(prev, ticks, gap, lo, hi, j);
    }
  }

  /** The first reading that has reached `t` is less than `gap` past it. */
  lemma {:induction false} FirstReading(prev: nat, ticks: seq<LobbyTick>, gap: nat, lo: int, hi: int, t: nat)
    returns (j: nat)
    requires Paced(prev, ticks, gap, lo, hi) && prev < t <= Before(prev, ticks, |ticks|)
    ensures j < |ticks| && t <= ticks[j].steady < t + gap
    decreases |ticks|
  {
    var n := |ticks| - 1;
    assert PacedAt(prev, ticks, gap, lo, hi, n);
    if Before(prev, ticks, n) < t {
      j := n;
    } else {
      assert forall i: nat :: i < n && PacedAt(prev, ticks, gap, lo, hi, i) ==> PacedAt(prev, ticks[..n], gap, lo, hi, i);
      j := FirstReading(prev, ticks[..n], gap, lo, hi, t);
    }
  }

  /** The memory is the initial one or the wall reading of a tick that ran the check. */
  lemma {:induction false} MemoryOrigin(last: nat, ticks: seq<LobbyTick>) returns (i: nat)
    ensures Memory(last, ticks) == last
            || (i < |ticks| && Runs(last, ticks, i) && Memory(last, ticks) == ticks[i].wall)
    decreases |ticks|
  {
    i := 0;
    if ticks != [] {
      var next := NextMemory(last, ticks[0]);
      var k := MemoryOrigin(next, ticks[1..]);
      if Memory(last, ticks) != next {
        RunsLater(last, ticks, k + 1);
        i := k + 1;
      }
    }
  }

  /** By the time the steady clock has reached 6000 ms and the slack, some check has run at 5000 ms or later. */
  lemma ExpiredBy(last: nat, a: nat, ticks: seq<LobbyTick>, gap: nat, lo: int, hi: int, j: nat) returns (k: nat)
    requires Paced(a, ticks, gap, lo, hi) && last <= a + hi && lo <= hi
    requires j < |ticks| && ticks[j].steady >= a + 6000 + (hi - lo)
    ensures k <= j && Runs(last, ticks, k) && ticks[k].steady >= a + 5000
  {
    var before := ticks[..j];
    k := MemoryOrigin(last, before);
    assert PacedAt(a, ticks, gap, lo, hi, j);
    if Memory(last, before) == last || ticks[k].steady < a + LOBBY_LIMIT {
      assert k < j ==> PacedAt(a, ticks, gap, lo, hi, k);
      k := j;
    } else {
      assert before[..k] == ticks[..k];
    }
  }

  /** A client accepted at `a` that never joins is marked no earlier than 5000 ms and before 6000 ms, the
      slack between the two clocks and one tick gap have passed, whatever the other clients do. */
  lemma LobbyTimeoutBound(s: LobbyState, a: nat, ticks: seq<LobbyTick>, fd: Fd, gap: nat, lo: int, hi: int)
    requires fd in s.lastAct && s.lastAct[fd] == a && s.last <= a + hi && lo <= hi
    requires Paced(a, ticks, gap, lo, hi) && NeverMoves(ticks, fd)
    requires Before(a, ticks, |ticks|) >= a + 6000 + (hi - lo)
    ensures var m := MarkTime(s, ticks, fd); m.Some? && a + 5000 <= m.value < a + 6000 + (hi - lo) + gap
  {
    var j := FirstReading(a, ticks, gap, lo, hi, a + 6000 + (hi - lo));
    var k := ExpiredBy(s.last, a, ticks, gap, lo, hi, j);
    var m := MarkedAt(s, ticks, fd);
    StayingExpires(s.last, a, ticks, fd, k);
    StayingExpires(s.last, a, ticks, fd, m);
    assert Expires(s.last, Some(a), ticks, fd, k) && m <= k;
    PacedIsSorted(a, ticks, gap, lo, hi, m, j);
  }

  lemma {:induction false} StandingMemory(last: nat, ticks: seq<LobbyTick>)
    requires forall i :: 0 <= i < |ticks| ==> last <= ticks[i].wall < last + 1000
    ensures Memory(last, ticks) == last
    decreases |ticks|
  {
    if ticks != [] {
      assert forall i :: 0 <= i < |ticks[1..]| ==> ticks[1..][i] == ticks[i + 1];
      StandingMemory(last, ticks[1..]);
    }
  }

  /** A wall clock that stands still delays the check for ever. */
  lemma StandingWallMarksNobody(s: LobbyState, ticks: seq<LobbyTick>, fd: Fd)
    requires forall i :: 0 <= i < |ticks| ==> s.last <= ticks[i].wall < s.last + 1000
    ensures MarkTime(s, ticks, fd) == None
  {
    forall i: nat ensures !Expires(s.last, EntryOf(s.lastAct, fd), ticks, fd, i) {
      if i < |ticks| { StandingMemory(s.last, ticks[..i]); }
    }
    MarkedExactly(s, ticks, fd);
  }
}
