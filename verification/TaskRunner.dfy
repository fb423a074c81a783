/** `TaskRunner`: sessions of persistent and one-shot tasks, run in order on every tick.

    A task function is named by a value of type `F`; what it does to the rest of the program, and
    whether it throws half-way, is given by an interpretation `exec`. */
module TaskRunner {
  import opened Collections

  datatype Task<F> = Task(once: bool, func: F)

  datatype Effect<S> = Effect(state: S, threw: bool)

  type Sessions<F> = seq<seq<Task<F>>>

  /** One tick: the sessions left behind, the state, whether a task threw, and the tasks that completed. */
  datatype Ran<F, S> = Ran(sessions: Sessions<F>, state: S, threw: bool, completed: seq<Task<F>>)

  datatype SessionRan<F, S> = SessionRan(session: seq<Task<F>>, state: S, threw: bool, completed: seq<Task<F>>)

  function RunSession<F, S>(session: seq<Task<F>>, s: S, exec: (F, S) -> Effect<S>): SessionRan<F, S> {
    if session == [] then SessionRan([], s, false, [])
    else
      var e := exec(session[0].func, s);
      if e.threw then SessionRan(session, e.state, true, [])
      else
        var r := RunSession(session[1..], e.state, exec);
        SessionRan((if session[0].once then [] else [session[0]]) + r.session, r.state, r.threw,
                   [session[0]] + r.completed)
  }

  function RunAll<F, S>(sessions: Sessions<F>, s: S, exec: (F, S) -> Effect<S>): Ran<F, S> {
    if sessions == [] then Ran([], s, false, [])
    else
      var h := RunSession(sessions[0], s, exec);
      if h.threw then Ran([h.session] + sessions[1..], h.state, true, h.completed)
      else
        var r := RunAll(sessions[1..], h.state, exec);
        Ran([h.session] + r.sessions, r.state, r.threw, h.completed + r.completed)
  }

  // ---------------------------------------------------------------- the class

  class TaskRunner<F> {
    var tasks: Sessions<F>

    constructor ()
      ensures tasks == []
    {
      tasks := [];
    }

    /** `new_session`: `cnt` empty sessions are added. */
    method NewSession(cnt: nat)
      modifies this
      ensures tasks == old(tasks) + seq(cnt, _ => [])
    {
      for i := 0 to cnt
        invariant tasks == old(tasks) + seq(i, _ => [])
      {
        tasks := tasks + [[]];
      }
    }

    /** `pushf` (once false) and `push_oncef`; the error is the exception of `session_at`. */
    method PushFront(which: nat, once: bool, func: F) returns (ok: bool)
      modifies this
      ensures ok <==> which < |old(tasks)|
      ensures tasks == if ok then old(tasks)[which := [Task(once, func)] + old(tasks)[which]] else old(tasks)
    {
      if which >= |tasks| { return false; }
      tasks := tasks[which := [Task(once, func)] + tasks[which]];
      ok := true;
    }

    /** `pushb` and `push_onceb`. */
    method PushBack(which: nat, once: bool, func: F) returns (ok: bool)
      modifies this
      ensures ok <==> which < |old(tasks)|
      ensures tasks == if ok then old(tasks)[which := old(tasks)[which] + [Task(once, func)]] else old(tasks)
    {
      if which >= |tasks| { return false; }
      tasks := tasks[which := tasks[which] + [Task(once, func)]];
      ok := true;
    }

    /** `run`: the outer loop over the sessions; a throw leaves both loops. */
    method Run<S>(s0: S, exec: (F, S) -> Effect<S>) returns (s: S, threw: bool)
      modifies this
      ensures var r := RunAll(old(tasks), s0, exec);
              tasks == r.sessions && s == r.state && threw == r.threw
    {
      s, threw := s0, false;
      ghost var all := tasks;
      ghost var goal := LeftAll([], all, s0, exec);
      assert all[0..] == all && all[..0] == [];
      assert goal.0 == RunAll(all, s0, exec).sessions;
      for i := 0 to |tasks|
        invariant |tasks| == |all| && tasks[i..] == all[i..]
        invariant goal == LeftAll(tasks[..i], all[i..], s, exec)
      {
        ghost var before := tasks;
        assert tasks[i] == all[i..][0] && all[i..][1..] == all[i + 1..] && before[i..][1..] == before[i + 1..];
        LeftAllStep(tasks[..i], all[i..], s, exec);
        var session: seq<Task<F>>;
        session, s, threw := RunOne(tasks[i], s, exec);
        tasks := tasks[i := session];
        SlotReplaced(before, i, session);
        if threw { return; }
      }
      assert tasks[..|tasks|] == tasks && all[|all|..] == [];
      threw := false;
    }

    /** The inner loop over one session, erasing completed one-shot tasks in place. */
    static method RunOne<S>(session0: seq<Task<F>>, s0: S, exec: (F, S) -> Effect<S>)
      returns (session: seq<Task<F>>, s: S, threw: bool)
      ensures var r := RunSession(session0, s0, exec);
              session == r.session && s == r.state && threw == r.threw
    {
      session, s := session0, s0;
      var it := 0;
      ghost var goal := Left([], session0, s0, exec);
      assert session[0..] == session && session[..0] == [];
      assert goal.0 == RunSession(session0, s0, exec).session;
      while it < |session|
        invariant 0 <= it <= |session|
        invariant goal == Left(session[..it], session[it..], s, exec)
        decreases |session| - it
      {
        var task := session[it];
        var e := exec(task.func, s);
        LeftStep(session[..it], session[it..], s, exec);
        assert session[it..][0] == task && session[it..][1..] == session[it + 1..];
        s := e.state;
        if e.threw {
          assert session[..it] + session[it..] == session;
          return session, s, true;
        }
        if task.once {
          SlotErased(session, it);
          session := session[..it] + session[it + 1..];
        } else {
          assert session[..it] + [task] == session[..it + 1];
          it := it + 1;
        }
      }
      assert session[..it] == session && session[it..] == [];
      threw := false;
    }
  }

  /** The outcome of a session of which `done` was kept so far and `rest` is still to run. */
  function Left<F, S>(done: seq<Task<F>>, rest: seq<Task<F>>, s: S, exec: (F, S) -> Effect<S>): (seq<Task<F>>, S, bool) {
    var r := RunSession(rest, s, exec);
    (done + r.session, r.state, r.threw)
  }

  lemma LeftStep<F, S>(done: seq<Task<F>>, rest: seq<Task<F>>, s: S, exec: (F, S) -> Effect<S>)
    requires rest != []
    ensures var e := exec(rest[0].func, s);
            Left(done, rest, s, exec) ==
            if e.threw then (done + rest, e.state, true)
            else Left(if rest[0].once then done else done + [rest[0]], rest[1..], e.state, exec)
  {
    var e := exec(rest[0].func, s);
    if !e.threw {
      var later := RunSession(rest[1..], e.state, exec).session;
      assert done + ([rest[0]] + later) == (done + [rest[0]]) + later;
      assert [] + later == later;
    }
  }

  lemma SlotErased<F>(s: seq<F>, i: nat)
    requires i < |s|
    ensures (s[..i] + s[i + 1..])[i..] == s[i + 1..] && (s[..i] + s[i + 1..])[..i] == s[..i]
  {
  }

  lemma SlotReplaced<F>(before: seq<F>, i: nat, x: F)
    requires i < |before|
    ensures before[i := x] == before[..i] + ([x] + before[i + 1..])
    ensures before[i := x][..i + 1] == before[..i] + [x] && before[i := x][i + 1..] == before[i + 1..]
  {
  }

  /** The same for whole sessions. */
  function LeftAll<F, S>(done: Sessions<F>, rest: Sessions<F>, s: S, exec: (F, S) -> Effect<S>): (Sessions<F>, S, bool) {
    var r := RunAll(rest, s, exec);
    (done + r.sessions, r.state, r.threw)
  }

  lemma LeftAllStep<F, S>(done: Sessions<F>, rest: Sessions<F>, s: S, exec: (F, S) -> Effect<S>)
    requires rest != []
    ensures var h := RunSession(rest[0], s, exec);
            LeftAll(done, rest, s, exec) ==
            if h.threw then (done + ([h.session] + rest[1..]), h.state, true)
            else LeftAll(done + [h.session], rest[1..], h.state, exec)
  {
    var h := RunSession(rest[0], s, exec);
    if !h.threw {
      var later := RunAll(rest[1..], h.state, exec).sessions;
      assert done + ([h.session] + later) == (done + [h.session]) + later;
    }
  }

  // ---------------------------------------------------------------- what a tick means

  function Flat<F>(sessions: Sessions<F>): seq<Task<F>> {
    if sessions == [] then [] else sessions[0] + Flat(sessions[1..])
  }

  function Persistent<F>(session: seq<Task<F>>): seq<Task<F>> {
    if session == [] then []
    else (if session[0].once then [] else [session[0]]) + Persistent(session[1..])
  }

  function PersistentAll<F>(sessions: Sessions<F>): Sessions<F> {
    if sessions == [] then [] else [Persistent(sessions[0])] + PersistentAll(sessions[1..])
  }

  /** Executing tasks one after another, as long as none throws. */
  function ExecAll<F, S>(ts: seq<Task<F>>, s: S, exec: (F, S) -> Effect<S>): Effect<S> {
    if ts == [] then Effect(s, false)
    else
      var e := exec(ts[0].func, s);
      if e.threw then e else ExecAll(ts[1..], e.state, exec)
  }

  lemma {:induction false} ExecAppend<F, S>(a: seq<Task<F>>, b: seq<Task<F>>, s: S, exec: (F, S) -> Effect<S>)
    ensures var e := ExecAll(a, s, exec);
            ExecAll(a + b, s, exec) == if e.threw then e else ExecAll(b, e.state, exec)
  {
    if a == [] {
      assert a + b == b;
    } else {
      assert (a + b)[1..] == a[1..] + b;
      var e := exec(a[0].func, s);
      if !e.threw { ExecAppend(a[1..], b, e.state, exec); }
    }
  }

  lemma {:induction false} SessionExecutes<F, S>(session: seq<Task<F>>, s: S, exec: (F, S) -> Effect<S>)
    ensures var r, e := RunSession(session, s, exec), ExecAll(session, s, exec);
            && r.state == e.state && r.threw == e.threw && r.completed <= session
            && (if r.threw then |r.completed| < |session| else r.completed == session)
  {
    if session != [] {
      var e := exec(session[0].func, s);
      if !e.threw {
        SessionExecutes(session[1..], e.state, exec);
        assert session == [session[0]] + session[1..];
      }
    }
  }

  lemma {:induction false} SessionKeeps<F, S>(session: seq<Task<F>>, s: S, exec: (F, S) -> Effect<S>)
    ensures var r := RunSession(session, s, exec);
            |r.completed| <= |session| && r.session == Persistent(r.completed) + session[|r.completed|..]
  {
    if session != [] {
      var e := exec(session[0].func, s);
      if !e.threw {
        SessionKeeps(session[1..], e.state, exec);
        var r, q := RunSession(session, s, exec), RunSession(session[1..], e.state, exec);
        assert r.completed[1..] == q.completed;
        assert session[|r.completed|..] == session[1..][|q.completed|..];
      }
    }
  }

  lemma SessionMeaning<F, S>(session: seq<Task<F>>, s: S, exec: (F, S) -> Effect<S>)
    ensures var r, e := RunSession(session, s, exec), ExecAll(session, s, exec);
            && r.state == e.state && r.threw == e.threw && r.completed <= session
            && r.session == Persistent(r.completed) + session[|r.completed|..]
            && (if r.threw then |r.completed| < |session| else r.completed == session)
  {
    SessionExecutes(session, s, exec);
    SessionKeeps(session, s, exec);
  }

  lemma {:induction false} TickRuns<F, S>(sessions: Sessions<F>, s: S, exec: (F, S) -> Effect<S>)
    ensures var r, e := RunAll(sessions, s, exec), ExecAll(Flat(sessions), s, exec);
            && r.state == e.state && r.threw == e.threw && r.completed <= Flat(sessions)
            && (if r.threw then |r.completed| < |Flat(sessions)| else r.completed == Flat(sessions))
  {
    if sessions != [] {
      var first, rest := sessions[0], sessions[1..];
      var h := RunSession(first, s, exec);
      SessionMeaning(first, s, exec);
      ExecAppend(first, Flat(rest), s, exec);
      if !h.threw { TickRuns(rest, h.state, exec); }
    }
  }

  lemma {:induction false} TickKeeps<F, S>(sessions: Sessions<F>, s: S, exec: (F, S) -> Effect<S>)
    ensures var r := RunAll(sessions, s, exec);
            && |r.completed| <= |Flat(sessions)| && |r.sessions| == |sessions|
            && Flat(r.sessions) == Persistent(r.completed) + Flat(sessions)[|r.completed|..]
  {
    if sessions != [] {
      var first, rest := sessions[0], sessions[1..];
      var h := RunSession(first, s, exec);
      SessionMeaning(first, s, exec);
      if h.threw {
        KeepsFirst(first, h.session, rest, h.completed);
      } else {
        TickKeeps(rest, h.state, exec);
        var r := RunAll(rest, h.state, exec);
        KeepsBoth(first, h.session, rest, r.sessions, r.completed);
      }
    }
  }

  lemma {:induction false} KeepsFirst<F>(first: seq<Task<F>>, kept: seq<Task<F>>, rest: Sessions<F>, completed: seq<Task<F>>)
    requires |completed| <= |first| && kept == Persistent(completed) + first[|completed|..]
    ensures Flat([kept] + rest) == Persistent(completed) + (first + Flat(rest))[|completed|..]
  {
    FlatCons(kept, rest);
    SuffixOfFirst(first, Flat(rest), |completed|);
    Regroup(Persistent(completed), first[|completed|..], Flat(rest));
  }

  lemma SuffixOfFirst<F>(a: seq<F>, b: seq<F>, k: nat)
    requires k <= |a|
    ensures (a + b)[k..] == a[k..] + b
  {
  }

  lemma {:induction false} KeepsBoth<F>(first: seq<Task<F>>, kept: seq<Task<F>>, rest: Sessions<F>, sessions: Sessions<F>,
                     completed: seq<Task<F>>)
    requires kept == Persistent(first) + first[|first|..] && |completed| <= |Flat(rest)|
    requires Flat(sessions) == Persistent(completed) + Flat(rest)[|completed|..]
    ensures Flat([kept] + sessions)
            == Persistent(first + completed) + (first + Flat(rest))[|first + completed|..]
  {
    var all, n := Flat(rest), |completed|;
    FlatCons(kept, sessions);
    NothingAfter(Persistent(first), first);
    PersistentAppend(first, completed);
    SuffixOfSecond(first, all, completed);
    Regroup(Persistent(first), Persistent(completed), all[n..]);
  }

  lemma NothingAfter<F>(a: seq<F>, b: seq<F>)
    ensures a + b[|b|..] == a
  {
  }

  lemma FlatCons<F>(session: seq<Task<F>>, rest: Sessions<F>)
    ensures Flat([session] + rest) == session + Flat(rest)
  {
    assert ([session] + rest)[1..] == rest;
  }

  lemma SuffixOfSecond<F>(a: seq<F>, b: seq<F>, c: seq<F>)
    requires |c| <= |b|
    ensures |a + c| <= |a + b| && (a + b)[|a + c|..] == b[|c|..]
  {
  }

  lemma {:induction false} TickKeepsEach<F, S>(sessions: Sessions<F>, s: S, exec: (F, S) -> Effect<S>)
    requires !RunAll(sessions, s, exec).threw
    ensures RunAll(sessions, s, exec).sessions == PersistentAll(sessions)
  {
    if sessions != [] {
      var h := RunSession(sessions[0], s, exec);
      SessionMeaning(sessions[0], s, exec);
      assert h.session == Persistent(sessions[0]) by { assert sessions[0][|sessions[0]|..] == []; }
      TickKeepsEach(sessions[1..], h.state, exec);
    }
  }

  /** A tick runs all sessions' tasks in order. If none throws, each session keeps exactly its persistent
      tasks in their order, and every task has completed. */
  lemma {:induction false} TickMeaning<F, S>(sessions: Sessions<F>, s: S, exec: (F, S) -> Effect<S>)
    ensures var r, e := RunAll(sessions, s, exec), ExecAll(Flat(sessions), s, exec);
            && r.state == e.state && r.threw == e.threw
            && (!r.threw ==> r.completed == Flat(sessions) && r.sessions == PersistentAll(sessions))
            && |r.sessions| == |sessions| && r.completed <= Flat(sessions)
            && Flat(r.sessions) == Persistent(r.completed) + Flat(sessions)[|r.completed|..]
  {
    TickRuns(sessions, s, exec);
    TickKeeps(sessions, s, exec);
    if !RunAll(sessions, s, exec).threw { TickKeepsEach(sessions, s, exec); }
  }

  lemma {:induction false} PersistentAppend<F>(a: seq<Task<F>>, b: seq<Task<F>>)
    ensures Persistent(a + b) == Persistent(a) + Persistent(b)
  {
    if a == [] {
      assert a + b == b;
    } else {
      assert (a + b)[1..] == a[1..] + b;
      PersistentAppend(a[1..], b);
    }
  }

  /** If a task throws, the tasks before it ran, the one-shots among them are gone, and the thrower and
      everything after it are untouched. */
  lemma ThrowingTick<F, S>(sessions: Sessions<F>, s: S, exec: (F, S) -> Effect<S>) returns (k: nat)
    requires RunAll(sessions, s, exec).threw
    ensures var all, r := Flat(sessions), RunAll(sessions, s, exec);
            && k < |all| && r.completed == all[..k]
            && Flat(r.sessions) == Persistent(all[..k]) + all[k..]
            && !ExecAll(all[..k], s, exec).threw
            && exec(all[k].func, ExecAll(all[..k], s, exec).state) == Effect(r.state, true)
  {
    TickMeaning(sessions, s, exec);
    var all, r := Flat(sessions), RunAll(sessions, s, exec);
    k := |r.completed|;
    CompletedDidNotThrow(sessions, s, exec);
    assert all == all[..k] + all[k..];
    ExecAppend(all[..k], all[k..], s, exec);
    ThrowerIsNext(sessions, s, exec);
  }

  lemma {:induction false} SessionThrower<F, S>(session: seq<Task<F>>, s: S, exec: (F, S) -> Effect<S>)
    ensures var r := RunSession(session, s, exec);
            !ExecAll(r.completed, s, exec).threw
            && (if r.threw
                then r.completed < session
                     && exec(session[|r.completed|].func, ExecAll(r.completed, s, exec).state) == Effect(r.state, true)
                else ExecAll(r.completed, s, exec).state == r.state)
  {
    if session != [] {
      var e := exec(session[0].func, s);
      if !e.threw {
        var r, q := RunSession(session, s, exec), RunSession(session[1..], e.state, exec);
        SessionThrower(session[1..], e.state, exec);
        assert r.completed[1..] == q.completed;
        assert session == [session[0]] + session[1..];
      }
    }
  }

  lemma {:induction false} CompletedDidNotThrow<F, S>(sessions: Sessions<F>, s: S, exec: (F, S) -> Effect<S>)
    ensures !ExecAll(RunAll(sessions, s, exec).completed, s, exec).threw
  {
    if sessions != [] {
      var h := RunSession(sessions[0], s, exec);
      SessionThrower(sessions[0], s, exec);
      if !h.threw {
        CompletedDidNotThrow(sessions[1..], h.state, exec);
        ExecAppend(h.completed, RunAll(sessions[1..], h.state, exec).completed, s, exec);
      }
    }
  }

  lemma {:induction false} ThrowerIsNext<F, S>(sessions: Sessions<F>, s: S, exec: (F, S) -> Effect<S>)
    requires RunAll(sessions, s, exec).threw
    ensures var all, r := Flat(sessions), RunAll(sessions, s, exec);
            |r.completed| < |all|
            && exec(all[|r.completed|].func, ExecAll(r.completed, s, exec).state) == Effect(r.state, true)
  {
    var h := RunSession(sessions[0], s, exec);
    SessionThrower(sessions[0], s, exec);
    SessionMeaning(sessions[0], s, exec);
    if !h.threw {
      var r := RunAll(sessions[1..], h.state, exec);
      ThrowerIsNext(sessions[1..], h.state, exec);
      ExecAppend(h.completed, r.completed, s, exec);
    }
  }

  // ---------------------------------------------------------------- one-shot tasks over all runs

  datatype Event<!F, !S> = Pushed(front: bool, which: nat, task: Task<F>) | Ticked(start: S, exec: (F, S) -> Effect<S>)

  datatype Log<F> = Log(sessions: Sessions<F>, completed: seq<Task<F>>, pushed: seq<Task<F>>)

  function After<F, S>(l: Log<F>, e: Event<F, S>): Log<F> {
    match e
    case Pushed(front, which, task) =>
      if which >= |l.sessions| then l
      else
        Log(l.sessions[which := if front then [task] + l.sessions[which] else l.sessions[which] + [task]],
            l.completed, l.pushed + [task])
    case Ticked(start, exec) =>
      var r := RunAll(l.sessions, start, exec);
      Log(r.sessions, l.completed + r.completed, l.pushed)
  }

  function Replay<F, S>(cnt: nat, events: seq<Event<F, S>>): Log<F> {
    if events == [] then Log(seq(cnt, _ => []), [], [])
    else After(Replay(cnt, events[..|events| - 1]), events[|events| - 1])
  }

  function OneShots<F>(ts: seq<Task<F>>): seq<Task<F>> {
    if ts == [] then [] else (if ts[0].once then [ts[0]] else []) + OneShots(ts[1..])
  }

  lemma OneShotsCons<F>(t: Task<F>, rest: seq<Task<F>>)
    ensures OneShots([t] + rest) == (if t.once then [t] else []) + OneShots(rest)
  {
    assert ([t] + rest)[1..] == rest;
  }

  lemma {:induction false} OneShotsAppend<F>(a: seq<Task<F>>, b: seq<Task<F>>)
    ensures OneShots(a + b) == OneShots(a) + OneShots(b)
  {
    if a == [] {
      assert a + b == b;
    } else {
      var t, rest := a[0], a[1..];
      assert a == [t] + rest && a + b == [t] + (rest + b);
      OneShotsCons(t, rest);
      OneShotsCons(t, rest + b);
      OneShotsAppend(rest, b);
      Regroup(if t.once then [t] else [], OneShots(rest), OneShots(b));
    }
  }

  lemma {:induction false} NoOneShotPersists<F>(ts: seq<Task<F>>)
    ensures OneShots(Persistent(ts)) == []
  {
    if ts != [] {
      NoOneShotPersists(ts[1..]);
      OneShotsAppend(if ts[0].once then [] else [ts[0]], Persistent(ts[1..]));
    }
  }

  lemma PushOne<F>(session: seq<Task<F>>, task: Task<F>, front: bool)
    ensures multiset(OneShots(if front then [task] + session else session + [task]))
            == multiset(OneShots(session)) + multiset(OneShots([task]))
  {
    if front { OneShotsAppend([task], session); } else { OneShotsAppend(session, [task]); }
  }

  lemma {:induction false} FlatAppend<F>(a: Sessions<F>, b: Sessions<F>)
    ensures Flat(a + b) == Flat(a) + Flat(b)
  {
    if a == [] {
      assert a + b == b;
    } else {
      assert (a + b)[1..] == a[1..] + b;
      FlatAppend(a[1..], b);
    }
  }

  /** The one-shot tasks of three neighbouring parts. */
  lemma FlatParts<F>(a: Sessions<F>, session: seq<Task<F>>, b: Sessions<F>)
    ensures multiset(OneShots(Flat(a + ([session] + b))))
            == multiset(OneShots(Flat(a))) + multiset(OneShots(session)) + multiset(OneShots(Flat(b)))
  {
    FlatAppend(a, [session] + b);
    assert ([session] + b)[1..] == b;
    OneShotsAppend(Flat(a), session + Flat(b));
    OneShotsAppend(session, Flat(b));
  }

  lemma FlatUpdate<F>(sessions: Sessions<F>, which: nat, changed: seq<Task<F>>, extra: multiset<Task<F>>)
    requires which < |sessions|
    requires multiset(OneShots(changed)) == multiset(OneShots(sessions[which])) + extra
    ensures multiset(OneShots(Flat(sessions[which := changed]))) == multiset(OneShots(Flat(sessions))) + extra
  {
    var a, b := sessions[..which], sessions[which + 1..];
    SlotReplaced(sessions, which, sessions[which]);
    SlotReplaced(sessions, which, changed);
    assert sessions[which := sessions[which]] == sessions;
    FlatParts(a, sessions[which], b);
    FlatParts(a, changed, b);
  }

  lemma TickConserves<F, S>(sessions: Sessions<F>, s: S, exec: (F, S) -> Effect<S>)
    ensures var r := RunAll(sessions, s, exec);
            multiset(OneShots(r.completed)) + multiset(OneShots(Flat(r.sessions))) == multiset(OneShots(Flat(sessions)))
    ensures var r := RunAll(sessions, s, exec); !r.threw ==> OneShots(Flat(r.sessions)) == []
  {
    TickMeaning(sessions, s, exec);
    var r, all := RunAll(sessions, s, exec), Flat(sessions);
    var rest := all[|r.completed|..];
    assert all == r.completed + rest;
    OneShotsAppend(r.completed, rest);
    OneShotsAppend(Persistent(r.completed), rest);
    NoOneShotPersists(r.completed);
  }

  /** Over any history of pushes and ticks, with any throws, every one-shot task has either completed or
      is still waiting, and never both or twice; after a tick that does not throw none is waiting. */
  lemma {:induction false} OneShotsRunOnce<F, S>(cnt: nat, events: seq<Event<F, S>>)
    ensures Accounted(Replay(cnt, events))
    ensures events != [] && CleanTick(Replay(cnt, events[..|events| - 1]), events[|events| - 1]) ==>
              OneShots(Flat(Replay(cnt, events).sessions)) == []
  {
    if events == [] {
      EmptySessions<F>(cnt);
    } else {
      var before, last := Replay(cnt, events[..|events| - 1]), events[|events| - 1];
      OneShotsRunOnce(cnt, events[..|events| - 1]);
      OneMoreEvent(before, last);
      if CleanTick(before, last) { TickConserves(before.sessions, last.start, last.exec); }
    }
  }

  /** A tick in which no task throws. */
  ghost predicate CleanTick<F, S>(l: Log<F>, e: Event<F, S>) {
    e.Ticked? && !RunAll(l.sessions, e.start, e.exec).threw
  }

  ghost predicate Accounted<F>(l: Log<F>) {
    multiset(OneShots(l.completed)) + multiset(OneShots(Flat(l.sessions))) == multiset(OneShots(l.pushed))
  }

  lemma OneMorePush<F>(l: Log<F>, front: bool, which: nat, task: Task<F>)
    requires Accounted(l) && which < |l.sessions|
    ensures var session := if front then [task] + l.sessions[which] else l.sessions[which] + [task];
            Accounted(l.(sessions := l.sessions[which := session], pushed := l.pushed + [task]))
  {
    var session := if front then [task] + l.sessions[which] else l.sessions[which] + [task];
    PushOne(l.sessions[which], task, front);
    FlatUpdate(l.sessions, which, session, multiset(OneShots([task])));
    OneShotsAppend(l.pushed, [task]);
  }

  lemma OneMoreEvent<F, S>(l: Log<F>, e: Event<F, S>)
    requires Accounted(l)
    ensures Accounted(After(l, e))
  {
    match e
    case Pushed(front, which, task) =>
      if which < |l.sessions| {
        OneMorePush(l, front, which, task);
      }
    case Ticked(start, exec) =>
      TickConserves(l.sessions, start, exec);
      OneShotsAppend(l.completed, RunAll(l.sessions, start, exec).completed);
  }

  lemma {:induction false} EmptySessions<F>(cnt: nat)
    ensures Flat<F>(seq(cnt, _ => [])) == []
  {
    if cnt > 0 {
      var sessions: Sessions<F> := seq(cnt, _ => []);
      assert sessions[1..] == seq(cnt - 1, _ => []);
      EmptySessions<F>(cnt - 1);
    }
  }
}
