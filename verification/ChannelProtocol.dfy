/** The admission and switching protocol between the lobby thread and the channel workers, as a
    transition system over unboundedly many channels and descriptors.

    Each step is one visible action of one thread. The lobby thread ("server") and every channel's
    worker have an explicit program counter; `pool_mtx` of a channel is the field `lock`. An action
    that only touches data no other thread can touch at that point is merged with its neighbour. */
module ChannelProtocol {
  type Fd = int
  type ChId = nat

  const CLOCK_RANGE: nat := 0x1_0000_0000_0000_0000
  const IDLE_LIMIT: nat := 300000

  datatype Owner = Free | ByServer | ByWorker

  /** Where a channel's worker is: the loop test of `proc`, then the tasks of one tick. */
  datatype WorkerPc =
    | LoopCheck
    | Polling                  // waiting for events, handling them, or waiting for pool_mtx
    | Joining(todo: set<Fd>)   // pool_mtx held; joins moved out of the pool and not yet added
    | Leaving(todo: set<Fd>)   // pool_mtx held; leaves moved out of the pool and not yet resolved
    | Stamping                 // pool_mtx held; stop_flag stored, empty_since not yet
    | Unlocking                // pool_mtx held; about to release it
    | Broadcasting
    | Deleting(todo: set<Fd>)
    | Exited

  datatype Chan = Chan(
    clients: set<Fd>, joinPool: set<Fd>, leavePool: set<Fd>, marked: set<Fd>,
    stop: bool, emptySince: nat, lock: Owner, pc: WorkerPc)

  const NEW_CHAN: Chan := Chan({}, {}, {}, {}, false, 0, Free, LoopCheck)

  datatype Origin = FromLobby | FromChannel(src: ChId)

  datatype Report = Report(fd: Fd, src: ChId, dst: ChId)

  /** Where the server thread is. `Probe` .. `FreshLock` are inside `find_or_create_channel`,
      `AtJoin` .. `Emplace` inside `join_and_logging`. */
  datatype ServerPc =
    | Idle
    | Probe(fd: Fd, at: ChId, todo: set<ChId>, full: set<ChId>)
    | Probed(fd: Fd, at: ChId, todo: set<ChId>, full: set<ChId>)
    | Search(fd: Fd, todo: set<ChId>, full: set<ChId>)
    | FreshLock(fd: Fd, at: ChId)
    | AtJoin(fd: Fd, at: ChId, org: Origin)
    | AwaitWorker(fd: Fd, at: ChId, org: Origin)
    | ClearStop(fd: Fd, at: ChId, org: Origin)
    | Emplace(fd: Fd, at: ChId, org: Origin)
    | Settle(fd: Fd, at: ChId, org: Origin)
    | Release(at: ChId, org: Origin)
    | Consuming
    | SwitchLock(fd: Fd, src: ChId, at: ChId)
    | SwitchPing(fd: Fd, src: ChId, at: ChId)
    | Reaping(sample: nat, unseen: set<ChId>)
    | Destroying(id: ChId, sample: nat, unseen: set<ChId>)

  datatype State = State(
    cap: nat, lobbyCap: nat, now: nat,
    chans: map<ChId, Chan>, lobby: set<Fd>, named: set<Fd>,
    reports: seq<Report>, batch: seq<Report>, spc: ServerPc)

  datatype WorkerStep =
    | Check | PollFails | Mark(fd: Fd) | Ask(fd: Fd, dst: ChId)
    | Lock | Add(fd: Fd) | JoinsDone | Drop(fd: Fd) | LeavesDone | Stamp | Unlock
    | Broadcast(failed: set<Fd>) | Delete(fd: Fd) | TickDone

  datatype ServerStep =
    | Accept(fd: Fd) | LobbyDrop(fd: Fd) | LobbyJoin(fd: Fd, preferred: ChId)
    | ProbeLock | Ping | NextCandidate(id: ChId) | CreateFresh | LockFresh
    | Join | Restart | StoreRunning | PushJoin | Finish | ReleaseLock
    | Drain | TakeReport | DrainEnd | LockTarget | PingTarget(sent: bool)
    | SampleClock | Inspect(id: ChId) | ReapEnd | Destroy

  datatype Step = Time(later: nat) | Work(c: ChId, w: WorkerStep) | Serve(a: ServerStep)

  // ---------------------------------------------------------------- shared small operations

  /** `ping_pool`: the tracked clients plus the pending joins are below the limit. */
  predicate HasSlot(cap: nat, ch: Chan) {
    |ch.clients| + |ch.joinPool| < cap
  }

  /** `ConnectionTracker::add_client` for an open descriptor: refused when the tracker is full. */
  function AddClient(cap: nat, clients: set<Fd>, fd: Fd): set<Fd> {
    if |clients| < cap then clients + {fd} else clients
  }

  /** Subtraction of two 64-bit clock values, as `msec64` computes it. */
  function ClockSub(a: nat, b: nat): nat {
    if b <= a then a - b else (a + CLOCK_RANGE - b) % CLOCK_RANGE
  }

  /** `get_channel`: the entry is created on first use. */
  function WithChannel(chans: map<ChId, Chan>, id: ChId): map<ChId, Chan> {
    if id in chans then chans else chans[id := NEW_CHAN]
  }

  /** The least positive id that is not in use, searching upwards from `n`. */
  function FreshFrom(used: set<ChId>, n: ChId): (id: ChId)
    ensures n <= id && id !in used
    ensures forall k :: n <= k < id ==> k in used
    decreases |set k | k in used && n <= k|
  {
    if n !in used then n
    else
      var above, from := (set k | k in used && n + 1 <= k), (set k | k in used && n <= k);
      assert n in from && n !in above;
      CardinalityGrows(above, from);
      FreshFrom(used, n + 1)
  }

  lemma {:induction false} CardinalityGrows<T>(a: set<T>, b: set<T>)
    requires a < b
    ensures |a| < |b|
  {
    var rest := b - a;
    assert b == a + rest && a * rest == {};
    assert rest != {};
  }

  const ID_RANGE: nat := 0x1_0000_0000

  /** The ids from 1 to `k`. */
  function Ids(k: nat): set<ChId> {
    if k == 0 then {} else Ids(k - 1) + {k}
  }

  lemma {:induction false} IdsSize(k: nat)
    ensures |Ids(k)| == k && forall i :: i in Ids(k) <==> 1 <= i <= k
  {
    if k > 0 { IdsSize(k - 1); }
  }

  /** The search stops after at most as many ids as there are channels, so with fewer than 2^32 - 1
      channels the 32-bit counter of the source never wraps. */
  lemma FreshIsSmall(used: set<ChId>)
    ensures FreshFrom(used, 1) <= |used| + 1
    ensures |used| < ID_RANGE - 1 ==> FreshFrom(used, 1) < ID_RANGE
  {
    var skipped := Ids(FreshFrom(used, 1) - 1);
    IdsSize(FreshFrom(used, 1) - 1);
    assert skipped <= used;
    if skipped != used { CardinalityGrows(skipped, used); }
  }

  // ---------------------------------------------------------------- worker steps

  predicate WorkerEnabled(ch: Chan, w: WorkerStep) {
    match w
    case Check => ch.pc.LoopCheck?
    case PollFails => ch.pc.Polling?
    case Mark(fd) => ch.pc.Polling? && fd in ch.clients
    case Ask(fd, _) => ch.pc.Polling? && fd in ch.clients
    case Lock => ch.pc.Polling? && ch.lock.Free?
    case Add(fd) => ch.pc.Joining? && fd in ch.pc.todo
    case JoinsDone => ch.pc.Joining? && ch.pc.todo == {}
    case Drop(fd) => ch.pc.Leaving? && fd in ch.pc.todo
    case LeavesDone => ch.pc.Leaving? && ch.pc.todo == {}
    case Stamp => ch.pc.Stamping?
    case Unlock => ch.pc.Unlocking?
    case Broadcast(failed) => ch.pc.Broadcasting? && failed <= ch.clients
    case Delete(fd) => ch.pc.Deleting? && fd in ch.pc.todo
    case TickDone => ch.pc.Deleting? && ch.pc.todo == {}
  }

  function WorkerApply(cap: nat, now: nat, ch: Chan, w: WorkerStep): Chan
    requires WorkerEnabled(ch, w)
  {
    match w
    case Check =>
      if ch.stop then ch.(pc := Exited) else ch.(pc := Polling, marked := {})
    case PollFails => ch.(pc := LoopCheck)
    case Mark(fd) => ch.(marked := ch.marked + {fd})
    case Ask(_, _) => ch
    case Lock => ch.(lock := ByWorker, pc := Joining(ch.joinPool), joinPool := {})
    case Add(fd) => ch.(clients := AddClient(cap, ch.clients, fd), pc := Joining(ch.pc.todo - {fd}))
    case JoinsDone => ch.(pc := Leaving(ch.leavePool), leavePool := {})
    case Drop(fd) => ch.(clients := ch.clients - {fd}, pc := Leaving(ch.pc.todo - {fd}))
    case LeavesDone =>
      if ch.clients == {} && ch.joinPool == {} then ch.(stop := true, pc := Stamping)
      else ch.(pc := Unlocking)
    case Stamp => ch.(emptySince := now, pc := Unlocking)
    case Unlock => ch.(lock := Free, pc := Broadcasting)
    case Broadcast(failed) => ch.(marked := ch.marked + failed, pc := Deleting(ch.marked + failed))
    case Delete(fd) => ch.(clients := ch.clients - {fd}, pc := Deleting(ch.pc.todo - {fd}))
    case TickDone => ch.(pc := LoopCheck)
  }

  // ---------------------------------------------------------------- server steps

  predicate ServerEnabled(s: State, a: ServerStep) {
    match a
    case Accept(_) => s.spc.Idle?
    case LobbyDrop(fd) => s.spc.Idle? && fd in s.lobby
    case LobbyJoin(fd, _) => s.spc.Idle? && fd in s.lobby
    case ProbeLock => s.spc.Probe? && s.spc.at in s.chans && s.chans[s.spc.at].lock.Free?
    case Ping => s.spc.Probed? && s.spc.at in s.chans
    case NextCandidate(id) => s.spc.Search? && id in s.spc.todo
    case CreateFresh => s.spc.Search? && s.spc.todo == {}
    case LockFresh => s.spc.FreshLock? && s.spc.at in s.chans && s.chans[s.spc.at].lock.Free?
    case Join => s.spc.AtJoin? && s.spc.at in s.chans
    case Restart => s.spc.AwaitWorker? && s.spc.at in s.chans && s.chans[s.spc.at].pc.Exited?
    case StoreRunning => s.spc.ClearStop? && s.spc.at in s.chans
    case PushJoin => s.spc.Emplace? && s.spc.at in s.chans
    case Finish => s.spc.Settle? && (s.spc.org.FromChannel? ==> s.spc.org.src in s.chans)
    case ReleaseLock => s.spc.Release? && s.spc.at in s.chans
    case Drain => s.spc.Idle?
    case TakeReport => s.spc.Consuming? && s.batch != []
    case DrainEnd => s.spc.Consuming? && s.batch == []
    case LockTarget => s.spc.SwitchLock? && s.spc.at in s.chans && s.chans[s.spc.at].lock.Free?
    case PingTarget(_) => s.spc.SwitchPing? && s.spc.at in s.chans
    case SampleClock => s.spc.Idle?
    case Inspect(id) => s.spc.Reaping? && id in s.spc.unseen && id in s.chans
    case ReapEnd => s.spc.Reaping? && s.spc.unseen == {}
    case Destroy => s.spc.Destroying? && s.spc.id in s.chans && s.chans[s.spc.id].pc.Exited?
  }

  function SetChan(s: State, id: ChId, ch: Chan): State {
    s.(chans := s.chans[id := ch])
  }

  function ServerApply(s: State, a: ServerStep): State
    requires ServerEnabled(s, a)
  {
    match a
    case Accept(fd) =>
      if |s.lobby| < s.lobbyCap && fd !in s.lobby
      then s.(lobby := s.lobby + {fd}, named := s.named + {fd}) else s
    case LobbyDrop(fd) => s.(lobby := s.lobby - {fd}, named := s.named - {fd})
    case LobbyJoin(fd, preferred) =>
      var chans := WithChannel(s.chans, preferred);
      s.(named := s.named + {fd}, chans := chans,
         spc := Probe(fd, preferred, chans.Keys - {preferred}, {}))
    case ProbeLock =>
      SetChan(s, s.spc.at, s.chans[s.spc.at].(lock := ByServer))
      .(spc := Probed(s.spc.fd, s.spc.at, s.spc.todo, s.spc.full))
    case Ping =>
      if HasSlot(s.cap, s.chans[s.spc.at]) then s.(spc := AtJoin(s.spc.fd, s.spc.at, FromLobby))
      else SetChan(s, s.spc.at, s.chans[s.spc.at].(lock := Free))
           .(spc := Search(s.spc.fd, s.spc.todo, s.spc.full + {s.spc.at}))
    case NextCandidate(id) => s.(spc := Probe(s.spc.fd, id, s.spc.todo - {id}, s.spc.full))
    case CreateFresh =>
      var id := FreshFrom(s.chans.Keys, 1);
      s.(chans := WithChannel(s.chans, id), spc := FreshLock(s.spc.fd, id))
    case LockFresh =>
      SetChan(s, s.spc.at, s.chans[s.spc.at].(lock := ByServer))
      .(spc := AtJoin(s.spc.fd, s.spc.at, FromLobby))
    case Join =>
      if s.spc.fd !in s.named then s.(spc := Settle(s.spc.fd, s.spc.at, s.spc.org))
      else if s.chans[s.spc.at].stop then s.(spc := AwaitWorker(s.spc.fd, s.spc.at, s.spc.org))
      else s.(spc := Emplace(s.spc.fd, s.spc.at, s.spc.org))
    case Restart =>
      SetChan(s, s.spc.at, s.chans[s.spc.at].(pc := LoopCheck))
      .(spc := ClearStop(s.spc.fd, s.spc.at, s.spc.org))
    case StoreRunning =>
      SetChan(s, s.spc.at, s.chans[s.spc.at].(stop := false, emptySince := 0))
      .(spc := Emplace(s.spc.fd, s.spc.at, s.spc.org))
    case PushJoin =>
      SetChan(s, s.spc.at, s.chans[s.spc.at].(joinPool := s.chans[s.spc.at].joinPool + {s.spc.fd}))
      .(spc := Settle(s.spc.fd, s.spc.at, s.spc.org))
    case Finish =>
      var done := Release(s.spc.at, s.spc.org);
      if s.spc.org.FromLobby? then s.(lobby := s.lobby - {s.spc.fd}, spc := done)
      else
        var src := s.chans[s.spc.org.src];
        var src' := if s.spc.fd in s.named then src.(leavePool := src.leavePool + {s.spc.fd})
                    else src.(marked := src.marked + {s.spc.fd});
        SetChan(s, s.spc.org.src, src').(spc := done)
    case ReleaseLock =>
      SetChan(s, s.spc.at, s.chans[s.spc.at].(lock := Free))
      .(spc := if s.spc.org.FromLobby? then Idle else Consuming)
    case Drain => s.(batch := s.reports, reports := [], spc := Consuming)
    case TakeReport =>
      var r := s.batch[0];
      s.(batch := s.batch[1..], chans := WithChannel(WithChannel(s.chans, r.src), r.dst),
         spc := SwitchLock(r.fd, r.src, r.dst))
    case DrainEnd => s.(spc := Idle)
    case LockTarget =>
      SetChan(s, s.spc.at, s.chans[s.spc.at].(lock := ByServer))
      .(spc := SwitchPing(s.spc.fd, s.spc.src, s.spc.at))
    case PingTarget(sent) =>
      if HasSlot(s.cap, s.chans[s.spc.at])
      then s.(spc := AtJoin(s.spc.fd, s.spc.at, FromChannel(s.spc.src)))
      else if sent then SetChan(s, s.spc.at, s.chans[s.spc.at].(lock := Free)).(spc := Consuming)
      else s.(batch := [], spc := Idle)  // send_frame threw: the call is left with the lock held
    case SampleClock => s.(spc := Reaping(s.now, s.chans.Keys))
    case Inspect(id) =>
      var ch := s.chans[id];
      if ch.stop && ch.emptySince > 0 && ClockSub(s.spc.sample, ch.emptySince) > IDLE_LIMIT
      then s.(spc := Destroying(id, s.spc.sample, s.spc.unseen - {id}))
      else s.(spc := Reaping(s.spc.sample, s.spc.unseen - {id}))
    case ReapEnd => s.(spc := Idle)
    case Destroy => s.(chans := s.chans - {s.spc.id}, spc := Reaping(s.spc.sample, s.spc.unseen))
  }

  // ---------------------------------------------------------------- the whole system

  predicate Enabled(s: State, step: Step) {
    match step
    case Time(later) => s.now <= later < CLOCK_RANGE
    case Work(c, w) => c in s.chans && WorkerEnabled(s.chans[c], w) && (w.Ask? ==> w.dst != c)
    case Serve(a) => ServerEnabled(s, a)
  }

  function Apply(s: State, step: Step): State
    requires Enabled(s, step)
  {
    match step
    case Time(later) => s.(now := later)
    case Work(c, w) =>
      s.(chans := s.chans[c := WorkerApply(s.cap, s.now, s.chans[c], w)],
         named := if w.Delete? then s.named - {w.fd} else s.named,
         reports := if w.Ask? then s.reports + [Report(w.fd, c, w.dst)] else s.reports)
    case Serve(a) => ServerApply(s, a)
  }

  predicate Init(s: State) {
    0 < s.now < CLOCK_RANGE && s.chans == map[] && s.lobby == {} && s.named == {}
    && s.reports == [] && s.batch == [] && s.spc == Idle
  }

  /** A finite run: `run[i]` is the state before `steps[i]`. */
  ghost predicate IsRun(run: seq<State>, steps: seq<Step>) {
    |run| == |steps| + 1 && Init(run[0])
    && forall i :: 0 <= i < |steps| ==> Enabled(run[i], steps[i]) && run[i + 1] == Apply(run[i], steps[i])
  }

  ghost predicate Reachable(s: State) {
    exists run, steps :: IsRun(run, steps) && run[|steps|] == s
  }

  lemma Start(s: State)
    requires Init(s)
    ensures Reachable(s)
  {
    assert IsRun([s], []);
  }

  lemma Advance(s: State, step: Step) returns (s': State)
    requires Reachable(s) && Enabled(s, step)
    ensures s' == Apply(s, step) && Reachable(s')
  {
    var run, steps :| IsRun(run, steps) && run[|steps|] == s;
    s' := Apply(s, step);
    assert IsRun(run + [s'], steps + [step]);
  }
}
