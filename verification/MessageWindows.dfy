/** Message windows: `cur_msgs` is a `std::multimap` keyed by timestamp, whose `emplace` puts an entry
    after the entries with an equal key (section 26.2.6 of ISO/IEC 14882:2017). */
module MessageWindows {
  import opened Collections

  type Fd = int

  datatype Kind = User | System

  datatype Msg = Msg(from: Fd, kind: Kind, text: string, timestamp: nat, userName: string)

  /** `multimap::emplace` into a sorted sequence: in front of the first greater key. */
  function Emplace(w: seq<Msg>, m: Msg): seq<Msg> {
    if w == [] || m.timestamp < w[0].timestamp then [m] + w else [w[0]] + Emplace(w[1..], m)
  }

  function EmplaceAll(w: seq<Msg>, q: seq<Msg>): seq<Msg>
    decreases |q|
  {
    if q == [] then w else EmplaceAll(Emplace(w, q[0]), q[1..])
  }

  /** The draining loop of `resolve_timestamps`. */
  method FillWindow(cur: seq<Msg>, queue: seq<Msg>) returns (w: seq<Msg>)
    ensures w == EmplaceAll(cur, queue)
  {
    w := cur;
    var local := queue;
    while local != []
      invariant EmplaceAll(cur, queue) == EmplaceAll(w, local)
      decreases |local|
    {
      var item := local[0];
      local := local[1..];
      w := Emplace(w, item);
    }
  }

  // ---------------------------------------------------------------- what a window is

  predicate Sorted(w: seq<Msg>) {
    forall i, j :: 0 <= i < j < |w| ==> w[i].timestamp <= w[j].timestamp
  }

  function Stamped(s: seq<Msg>, t: nat): seq<Msg> {
    if s == [] then [] else (if s[0].timestamp == t then [s[0]] else []) + Stamped(s[1..], t)
  }

  function FromSender(s: seq<Msg>, fd: Fd): seq<Msg> {
    if s == [] then [] else (if s[0].from == fd then [s[0]] else []) + FromSender(s[1..], fd)
  }

  /** `w` is `batch` sorted by timestamp, with equal timestamps in their order of arrival. */
  ghost predicate StableSortOf(batch: seq<Msg>, w: seq<Msg>) {
    Sorted(w) && SameStamped(batch, w)
  }

  lemma {:induction false} EmplaceElements(w: seq<Msg>, m: Msg)
    ensures multiset(Emplace(w, m)) == multiset(w) + multiset{m}
  {
    if w != [] && w[0].timestamp <= m.timestamp {
      EmplaceElements(w[1..], m);
      assert w == [w[0]] + w[1..];
    }
  }

  lemma {:induction false} EmplaceKeepsSorted(w: seq<Msg>, m: Msg)
    requires Sorted(w)
    ensures Sorted(Emplace(w, m))
  {
    if w != [] && w[0].timestamp <= m.timestamp {
      var r := Emplace(w[1..], m);
      EmplaceKeepsSorted(w[1..], m);
      EmplaceElements(w[1..], m);
      forall i | 0 <= i < |r| ensures w[0].timestamp <= r[i].timestamp {
        assert r[i] in multiset(r);
      }
    }
  }

  lemma {:induction false} EmplaceIsStable(w: seq<Msg>, m: Msg, t: nat)
    requires Sorted(w)
    ensures Stamped(Emplace(w, m), t) == Stamped(w, t) + (if m.timestamp == t then [m] else [])
  {
    if w == [] {
      assert ([m] + w)[1..] == [];
    } else if m.timestamp < w[0].timestamp {
      assert ([m] + w)[1..] == w;
      if m.timestamp == t { NoneStamped(w, t); }
    } else {
      var head := if w[0].timestamp == t then [w[0]] else [];
      var mine := if m.timestamp == t then [m] else [];
      EmplaceIsStable(w[1..], m, t);
      StampedCons(w[0], Emplace(w[1..], m), t);
      Regroup(head, Stamped(w[1..], t), mine);
    }
  }

  lemma StampedCons(m: Msg, rest: seq<Msg>, t: nat)
    ensures Stamped([m] + rest, t) == (if m.timestamp == t then [m] else []) + Stamped(rest, t)
  {
    assert ([m] + rest)[1..] == rest;
  }

  lemma {:induction false} NoneStamped(w: seq<Msg>, t: nat)
    requires forall i :: 0 <= i < |w| ==> w[i].timestamp > t
    ensures Stamped(w, t) == []
  {
    if w != [] { NoneStamped(w[1..], t); }
  }

  lemma {:induction false} EmplaceAllSorts(w: seq<Msg>, q: seq<Msg>)
    requires Sorted(w)
    ensures Sorted(EmplaceAll(w, q)) && multiset(EmplaceAll(w, q)) == multiset(w) + multiset(q)
    decreases |q|
  {
    if q != [] {
      EmplaceKeepsSorted(w, q[0]);
      EmplaceElements(w, q[0]);
      EmplaceAllSorts(Emplace(w, q[0]), q[1..]);
      assert q == [q[0]] + q[1..];
    }
  }

  lemma StampedHead(s: seq<Msg>, t: nat)
    requires s != []
    ensures Stamped(s, t) == (if s[0].timestamp == t then [s[0]] else []) + Stamped(s[1..], t)
  {
  }

  lemma {:induction false} EmplaceAllIsStable(w: seq<Msg>, q: seq<Msg>, t: nat)
    requires Sorted(w)
    ensures Stamped(EmplaceAll(w, q), t) == Stamped(w, t) + Stamped(q, t)
    decreases |q|
  {
    if q != [] {
      var one := if q[0].timestamp == t then [q[0]] else [];
      EmplaceKeepsSorted(w, q[0]);
      EmplaceIsStable(w, q[0], t);
      EmplaceAllIsStable(Emplace(w, q[0]), q[1..], t);
      StampedHead(q, t);
      assert (Stamped(w, t) + one) + Stamped(q[1..], t) == Stamped(w, t) + (one + Stamped(q[1..], t));
    }
  }

  /** A window filled from an empty `cur_msgs` is the stable sort of the drained batch. */
  lemma WindowIsStableSort(batch: seq<Msg>)
    ensures StableSortOf(batch, EmplaceAll([], batch))
    ensures multiset(EmplaceAll([], batch)) == multiset(batch)
  {
    EmplaceAllSorts([], batch);
    forall t ensures Stamped(batch, t) == Stamped(EmplaceAll([], batch), t) {
      EmplaceAllIsStable([], batch, t);
    }
  }

  lemma {:induction false} SmallestIsFirst(w: seq<Msg>, t: nat)
    requires Sorted(w) && Stamped(w, t) != [] && (forall i :: 0 <= i < |w| ==> w[i].timestamp >= t)
    ensures w != [] && w[0].timestamp == t && Stamped(w, t)[0] == w[0]
  {
    if w[0].timestamp != t {
      NoneStamped(w, t);
    }
  }

  lemma {:induction false} StampedHas(s: seq<Msg>, i: nat)
    requires i < |s|
    ensures Stamped(s, s[i].timestamp) != []
  {
    if i > 0 { StampedHas(s[1..], i - 1); }
  }

  lemma StampedTail(s: seq<Msg>, t: nat)
    requires s != []
    ensures Stamped(s[1..], t) == if s[0].timestamp == t then Stamped(s, t)[1..] else Stamped(s, t)
  {
  }

  ghost predicate SameStamped(a: seq<Msg>, b: seq<Msg>) {
    forall t :: Stamped(a, t) == Stamped(b, t)
  }

  lemma FirstsAgree(a: seq<Msg>, b: seq<Msg>)
    requires Sorted(a) && Sorted(b) && SameStamped(a, b) && a != []
    ensures b != [] && a[0] == b[0]
  {
    var t := a[0].timestamp;
    StampedHas(a, 0);
    assert Stamped(b, t) != [];
    if b[0].timestamp < t {
      StampedHas(b, 0);
      NoneStamped(a, b[0].timestamp);
    }
    SmallestIsFirst(a, t);
    SmallestIsFirst(b, t);
  }

  /** There is only one stable sort, so the definition above determines every window completely. */
  lemma {:induction false} StableSortIsUnique(a: seq<Msg>, b: seq<Msg>)
    requires Sorted(a) && Sorted(b) && SameStamped(a, b)
    ensures a == b
    decreases |a|
  {
    if a == [] {
      if b != [] { StampedHas(b, 0); }
    } else {
      FirstsAgree(a, b);
      forall u ensures Stamped(a[1..], u) == Stamped(b[1..], u) {
        assert Stamped(a, u) == Stamped(b, u);
        StampedTail(a, u);
        StampedTail(b, u);
      }
      StableSortIsUnique(a[1..], b[1..]);
    }
  }

  // ---------------------------------------------------------------- one sender's messages

  lemma {:induction false} SenderAppend(a: seq<Msg>, b: seq<Msg>, fd: Fd)
    ensures FromSender(a + b, fd) == FromSender(a, fd) + FromSender(b, fd)
  {
    if a == [] {
      assert a + b == b;
    } else {
      var m, rest := a[0], a[1..];
      assert a == [m] + rest && a + b == [m] + (rest + b);
      SenderCons(m, rest, fd);
      SenderCons(m, rest + b, fd);
      SenderAppend(rest, b, fd);
      Regroup(if m.from == fd then [m] else [], FromSender(rest, fd), FromSender(b, fd));
    }
  }

  lemma SenderCons(m: Msg, rest: seq<Msg>, fd: Fd)
    ensures FromSender([m] + rest, fd) == (if m.from == fd then [m] else []) + FromSender(rest, fd)
  {
    assert ([m] + rest)[1..] == rest;
  }

  lemma {:induction false} SenderAllIn(s: seq<Msg>, fd: Fd, i: nat)
    requires i < |s| && s[i].from == fd
    ensures s[i] in FromSender(s, fd)
  {
    if i > 0 { SenderAllIn(s[1..], fd, i - 1); }
  }

  lemma TailOfSender(w: seq<Msg>, m: Msg, fd: Fd)
    requires w != [] && forall k :: 0 <= k < |FromSender(w, fd)| ==> FromSender(w, fd)[k].timestamp <= m.timestamp
    ensures forall k :: 0 <= k < |FromSender(w[1..], fd)| ==> FromSender(w[1..], fd)[k].timestamp <= m.timestamp
  {
    var all, later := FromSender(w, fd), FromSender(w[1..], fd);
    forall k | 0 <= k < |later| ensures later[k].timestamp <= m.timestamp {
      assert later[k] == all[k + |all| - |later|];
    }
  }

  /** Inserting a message that is not older than its sender's other messages keeps the sender's order. */
  lemma {:induction false} EmplaceSender(w: seq<Msg>, m: Msg, fd: Fd)
    requires Sorted(w)
    requires m.from == fd ==> forall k :: 0 <= k < |FromSender(w, fd)| ==> FromSender(w, fd)[k].timestamp <= m.timestamp
    ensures FromSender(Emplace(w, m), fd) == FromSender(w, fd) + (if m.from == fd then [m] else [])
  {
    if w == [] {
      assert ([m] + w)[1..] == [];
    } else if m.timestamp < w[0].timestamp {
      assert ([m] + w)[1..] == w;
      if m.from == fd && FromSender(w, fd) != [] { SenderIsIn(w, fd, 0); }
    } else {
      if m.from == fd { TailOfSender(w, m, fd); }
      EmplaceSender(w[1..], m, fd);
      SenderCons(w[0], Emplace(w[1..], m), fd);
      Regroup(if w[0].from == fd then [w[0]] else [], FromSender(w[1..], fd), if m.from == fd then [m] else []);
      assert ([w[0]] + Emplace(w[1..], m))[1..] == Emplace(w[1..], m);
    }
  }

  lemma {:induction false} SenderIsIn(s: seq<Msg>, fd: Fd, k: nat)
    requires k < |FromSender(s, fd)|
    ensures FromSender(s, fd)[k] in s && FromSender(s, fd)[k].from == fd
  {
    if s[0].from == fd {
      if k > 0 { SenderIsIn(s[1..], fd, k - 1); }
    } else {
      SenderIsIn(s[1..], fd, k);
    }
  }

  /** A sender whose messages carry nondecreasing timestamps keeps its order inside a window. */
  lemma {:induction false} WindowKeepsSender(w: seq<Msg>, q: seq<Msg>, fd: Fd)
    requires Sorted(w) && Sorted(FromSender(w, fd) + FromSender(q, fd))
    ensures FromSender(EmplaceAll(w, q), fd) == FromSender(w, fd) + FromSender(q, fd)
    decreases |q|
  {
    if q != [] {
      var m := q[0];
      if m.from == fd {
        var all := FromSender(w, fd) + FromSender(q, fd);
        forall k | 0 <= k < |FromSender(w, fd)| ensures FromSender(w, fd)[k].timestamp <= m.timestamp {
          assert all[k] == FromSender(w, fd)[k] && all[|FromSender(w, fd)|] == m;
        }
      }
      EmplaceSender(w, m, fd);
      EmplaceKeepsSorted(w, m);
      assert FromSender(Emplace(w, m), fd) + FromSender(q[1..], fd) == FromSender(w, fd) + FromSender(q, fd);
      WindowKeepsSender(Emplace(w, m), q[1..], fd);
    }
  }
}
