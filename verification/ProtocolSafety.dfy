/** What every interleaving of the protocol keeps: the capacity reservation, "stopped means empty",
    the lock discipline, and a restart that cannot deadlock. Nothing here assumes anything about the
    clients: they may ask for several switches at once and disconnect at any time. */
module ProtocolSafety {
  import opened ChannelProtocol

  // ---------------------------------------------------------------- the invariant

  predicate InCriticalSection(pc: WorkerPc) {
    pc.Joining? || pc.Leaving? || pc.Stamping? || pc.Unlocking?
  }

  /** The worker will not ask for `pool_mtx` again unless its loop test finds `stop_flag` clear. */
  predicate PastLock(pc: WorkerPc) {
    pc.Broadcasting? || pc.Deleting? || pc.LoopCheck? || pc.Exited?
  }

  /** Joins that were admitted but are in neither the pool nor the tracker. */
  function Admitted(ch: Chan): set<Fd> {
    if ch.pc.Joining? then ch.pc.todo else {}
  }

  predicate Reserved(cap: nat, ch: Chan) {
    |ch.clients| + |ch.joinPool| + |Admitted(ch)| <= cap
  }

  /** The part of the invariant that counts nothing. */
  ghost predicate Shape(now: nat, ch: Chan) {
    && (ch.lock.ByWorker? <==> InCriticalSection(ch.pc))
    && (InCriticalSection(ch.pc) ==> ch.joinPool == {})
    && (ch.stop ==> ch.clients == {} && ch.joinPool == {}
                    && (PastLock(ch.pc) || ch.pc.Stamping? || ch.pc.Unlocking?))
    && (ch.pc.Stamping? ==> ch.stop && ch.emptySince == 0)
    && (ch.emptySince > 0 ==> ch.stop)
    && (ch.stop && !ch.pc.Stamping? ==> ch.emptySince > 0)
    && ch.emptySince <= now
  }

  ghost predicate ChanInv(cap: nat, now: nat, ch: Chan) {
    Shape(now, ch) && (cap >= 1 ==> Reserved(cap, ch))
  }

  /** The channel whose `pool_mtx` the server holds at this program point. */
  predicate Holds(pc: ServerPc, c: ChId) {
    match pc
    case Probed(_, at, _, _) => c == at
    case AtJoin(_, at, _) => c == at
    case AwaitWorker(_, at, _) => c == at
    case ClearStop(_, at, _) => c == at
    case Emplace(_, at, _) => c == at
    case Settle(_, at, _) => c == at
    case Release(at, _) => c == at
    case SwitchPing(_, _, at) => c == at
    case _ => false
  }

  function OriginOf(pc: ServerPc): Origin {
    match pc
    case AtJoin(_, _, org) => org
    case AwaitWorker(_, _, org) => org
    case ClearStop(_, _, org) => org
    case Emplace(_, _, org) => org
    case Settle(_, _, org) => org
    case SwitchLock(_, src, _) => FromChannel(src)
    case SwitchPing(_, src, _) => FromChannel(src)
    case _ => FromLobby
  }

  /** The server is handling the lobby join of `fd` and has not yet dropped it from the lobby. */
  predicate Placing(pc: ServerPc, fd: Fd) {
    match pc
    case Probe(f, _, _, _) => f == fd
    case Probed(f, _, _, _) => f == fd
    case Search(f, _, _) => f == fd
    case FreshLock(f, _) => f == fd
    case AtJoin(f, _, org) => f == fd && org.FromLobby?
    case AwaitWorker(f, _, org) => f == fd && org.FromLobby?
    case ClearStop(f, _, org) => f == fd && org.FromLobby?
    case Emplace(f, _, org) => f == fd && org.FromLobby?
    case Settle(f, _, org) => f == fd && org.FromLobby?
    case _ => false
  }

  ghost predicate ServerInv(s: State) {
    && (forall c :: Holds(s.spc, c) ==> c in s.chans && s.chans[c].lock.ByServer?)
    && (OriginOf(s.spc).FromChannel? ==> OriginOf(s.spc).src in s.chans)
    && (forall fd :: Placing(s.spc, fd) ==> fd in s.lobby)
    && (match s.spc
        case Probe(_, at, todo, full) =>
          at in s.chans && {at} + todo + full == s.chans.Keys
        case Probed(_, at, todo, full) => {at} + todo + full == s.chans.Keys
        case Search(_, todo, full) => todo + full == s.chans.Keys
        case FreshLock(_, at) =>
          at in s.chans && Vacant(s.chans[at])
        case AtJoin(_, at, _) => s.cap >= 1 ==> HasSlot(s.cap, s.chans[at])
        case AwaitWorker(_, at, _) => s.chans[at].stop
        case ClearStop(_, at, _) =>
          s.chans[at].stop && (s.chans[at].pc.LoopCheck? || s.chans[at].pc.Exited?)
        case Emplace(_, at, _) =>
          !s.chans[at].stop && (s.cap >= 1 ==> HasSlot(s.cap, s.chans[at]))
        case SwitchLock(_, _, at) => at in s.chans
        case Reaping(sample, unseen) => unseen <= s.chans.Keys && sample <= s.now
        case Destroying(id, sample, unseen) =>
          id in s.chans && id !in unseen && unseen <= s.chans.Keys && sample <= s.now
          && s.chans[id].stop && s.chans[id].emptySince > 0
        case _ => true)
  }

  ghost predicate Inv(s: State) {
    && 0 < s.now < CLOCK_RANGE
    && (forall c :: c in s.chans ==> ChanInv(s.cap, s.now, s.chans[c]))
    && ServerInv(s)
  }

  // ---------------------------------------------------------------- worker steps keep it

  lemma AddKeepsBudget(cap: nat, clients: set<Fd>, todo: set<Fd>, fd: Fd)
    requires fd in todo && |clients| + |todo| <= cap
    ensures AddClient(cap, clients, fd) == clients + {fd}
    ensures |clients + {fd}| + |todo - {fd}| <= cap
  {
    assert |todo - {fd}| == |todo| - 1;
    if fd in clients { assert clients + {fd} == clients; }
  }

  lemma SmallerSet<T>(a: set<T>, b: set<T>)
    requires a <= b
    ensures |a| <= |b|
  {
    if a != b { CardinalityGrows(a, b); }
  }

  lemma WorkerKeepsShape(cap: nat, now: nat, ch: Chan, w: WorkerStep)
    requires Shape(now, ch) && now > 0 && WorkerEnabled(ch, w)
    ensures Shape(now, WorkerApply(cap, now, ch, w))
  {
  }

  lemma WorkerKeepsBudget(cap: nat, now: nat, ch: Chan, w: WorkerStep)
    requires Shape(now, ch) && Reserved(cap, ch) && WorkerEnabled(ch, w)
    ensures Reserved(cap, WorkerApply(cap, now, ch, w))
  {
    match w
    case Add(fd) => AddKeepsBudget(cap, ch.clients, ch.pc.todo, fd);
    case Drop(fd) => SmallerSet(ch.clients - {fd}, ch.clients);
    case Delete(fd) => SmallerSet(ch.clients - {fd}, ch.clients);
    case _ =>
  }

  /** While the server holds the lock, a worker step leaves everything `ping_pool` and `join` read
      alone, except that clients may disappear. */
  predicate Quiet(before: Chan, after: Chan) {
    after.lock.ByServer? && after.clients <= before.clients && |after.clients| <= |before.clients|
    && after.joinPool == before.joinPool && after.stop == before.stop
    && after.emptySince == before.emptySince && Admitted(before) == Admitted(after) == {}
    && (before.stop && (before.pc.LoopCheck? || before.pc.Exited?) ==> after.pc.Exited?)
  }

  lemma WorkerQuiet(cap: nat, now: nat, ch: Chan, w: WorkerStep)
    requires Shape(now, ch) && WorkerEnabled(ch, w) && ch.lock.ByServer?
    ensures Quiet(ch, WorkerApply(cap, now, ch, w))
  {
    if w.Delete? { SmallerSet(ch.clients - {w.fd}, ch.clients); }
  }

  /** A stopped channel that the server does not touch stays stopped. */
  lemma WorkerKeepsStopped(cap: nat, now: nat, ch: Chan, w: WorkerStep)
    requires ChanInv(cap, now, ch) && WorkerEnabled(ch, w) && ch.stop && ch.emptySince > 0
    ensures var ch' := WorkerApply(cap, now, ch, w); ch'.stop && ch'.emptySince > 0
  {
  }

  predicate Vacant(ch: Chan) {
    ch.clients == {} && ch.joinPool == {} && Admitted(ch) == {}
  }

  lemma WorkerKeepsVacant(cap: nat, now: nat, ch: Chan, w: WorkerStep)
    requires WorkerEnabled(ch, w) && Vacant(ch)
    ensures Vacant(WorkerApply(cap, now, ch, w))
  {
  }

  /** Replacing one channel by the result of a worker step keeps what the server relies on. */
  lemma {:induction false} ReplaceKeepsServer(s: State, c: ChId, after: Chan, s': State)
    requires Inv(s) && c in s.chans
    requires s.chans[c].lock.ByServer? ==> Quiet(s.chans[c], after)
    requires Vacant(s.chans[c]) ==> Vacant(after)
    requires s.chans[c].stop && s.chans[c].emptySince > 0 ==> after.stop && after.emptySince > 0
    requires s'.chans == s.chans[c := after] && s'.spc == s.spc
    requires s'.lobby == s.lobby && s'.cap == s.cap && s'.now == s.now
    ensures ServerInv(s')
  {
    assert s'.chans.Keys == s.chans.Keys;
  }

  lemma {:induction false} WorkKeepsInv(s: State, c: ChId, w: WorkerStep)
    requires Inv(s) && Enabled(s, Work(c, w))
    ensures Inv(Apply(s, Work(c, w)))
  {
    var ch := s.chans[c];
    var after := WorkerApply(s.cap, s.now, ch, w);
    assert ChanInv(s.cap, s.now, after) by {
      WorkerKeepsShape(s.cap, s.now, ch, w);
      if s.cap >= 1 { WorkerKeepsBudget(s.cap, s.now, ch, w); }
    }
    assert ServerInv(Apply(s, Work(c, w))) by {
      if ch.lock.ByServer? { WorkerQuiet(s.cap, s.now, ch, w); }
      if ch.stop && ch.emptySince > 0 { WorkerKeepsStopped(s.cap, s.now, ch, w); }
      if Vacant(ch) { WorkerKeepsVacant(s.cap, s.now, ch, w); }
      ReplaceKeepsServer(s, c, after, Apply(s, Work(c, w)));
    }
  }

  // ---------------------------------------------------------------- server steps keep it

  lemma LobbyKeepsInv(s: State, a: ServerStep)
    requires Inv(s) && ServerEnabled(s, a) && (a.Accept? || a.LobbyDrop?)
    ensures Inv(ServerApply(s, a))
  {
  }

  lemma ArrivalKeepsInv(s: State, a: ServerStep)
    requires Inv(s) && ServerEnabled(s, a) && (a.LobbyJoin?)
    ensures Inv(ServerApply(s, a))
  {
  }

  lemma IdlingKeepsInv(s: State, a: ServerStep)
    requires Inv(s) && ServerEnabled(s, a) && (a.Drain? || a.DrainEnd? || a.SampleClock? || a.ReapEnd?)
    ensures Inv(ServerApply(s, a))
  {
  }

  lemma ProbingKeepsInv(s: State, a: ServerStep)
    requires Inv(s) && ServerEnabled(s, a) && (a.ProbeLock? || a.Ping? || a.NextCandidate?)
    ensures Inv(ServerApply(s, a))
  {
  }

  lemma FreshKeepsInv(s: State, a: ServerStep)
    requires Inv(s) && ServerEnabled(s, a) && (a.CreateFresh? || a.LockFresh?)
    ensures Inv(ServerApply(s, a))
  {
  }

  lemma JoiningKeepsInv(s: State, a: ServerStep)
    requires Inv(s) && ServerEnabled(s, a) && (a.Join? || a.Restart?)
    ensures Inv(ServerApply(s, a))
  {
  }

  lemma PushingKeepsInv(s: State, a: ServerStep)
    requires Inv(s) && ServerEnabled(s, a) && (a.StoreRunning? || a.PushJoin?)
    ensures Inv(ServerApply(s, a))
  {
  }

  lemma FinishingKeepsInv(s: State, a: ServerStep)
    requires Inv(s) && ServerEnabled(s, a) && (a.Finish? || a.ReleaseLock?)
    ensures Inv(ServerApply(s, a))
  {
  }

  lemma ReportingKeepsInv(s: State, a: ServerStep)
    requires Inv(s) && ServerEnabled(s, a) && (a.TakeReport?)
    ensures Inv(ServerApply(s, a))
  {
  }

  lemma SwitchingKeepsInv(s: State, a: ServerStep)
    requires Inv(s) && ServerEnabled(s, a) && (a.LockTarget? || a.PingTarget?)
    ensures Inv(ServerApply(s, a))
  {
  }

  lemma InspectingKeepsInv(s: State, a: ServerStep)
    requires Inv(s) && ServerEnabled(s, a) && (a.Inspect?)
    ensures Inv(ServerApply(s, a))
  {
  }

  lemma ReapingKeepsInv(s: State, a: ServerStep)
    requires Inv(s) && ServerEnabled(s, a) && (a.Destroy?)
    ensures Inv(ServerApply(s, a))
  {
  }

  lemma {:induction false} StepKeepsInv(s: State, step: Step)
    requires Inv(s) && Enabled(s, step)
    ensures Inv(Apply(s, step))
  {
    match step
    case Time(_) =>
    case Work(c, w) => WorkKeepsInv(s, c, w);
    case Serve(a) =>
      match a {
        case Accept(_) => LobbyKeepsInv(s, a);
        case LobbyDrop(_) => LobbyKeepsInv(s, a);
        case LobbyJoin(_, _) => ArrivalKeepsInv(s, a);
        case Drain => IdlingKeepsInv(s, a);
        case DrainEnd => IdlingKeepsInv(s, a);
        case SampleClock => IdlingKeepsInv(s, a);
        case ReapEnd => IdlingKeepsInv(s, a);
        case ProbeLock => ProbingKeepsInv(s, a);
        case Ping => ProbingKeepsInv(s, a);
        case NextCandidate(_) => ProbingKeepsInv(s, a);
        case CreateFresh => FreshKeepsInv(s, a);
        case LockFresh => FreshKeepsInv(s, a);
        case Join => JoiningKeepsInv(s, a);
        case Restart => JoiningKeepsInv(s, a);
        case StoreRunning => PushingKeepsInv(s, a);
        case PushJoin => PushingKeepsInv(s, a);
        case Finish => FinishingKeepsInv(s, a);
        case ReleaseLock => FinishingKeepsInv(s, a);
        case TakeReport => ReportingKeepsInv(s, a);
        case LockTarget => SwitchingKeepsInv(s, a);
        case PingTarget(_) => SwitchingKeepsInv(s, a);
        case Inspect(_) => InspectingKeepsInv(s, a);
        case Destroy => ReapingKeepsInv(s, a);
      }
  }
}
