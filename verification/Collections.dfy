/** Optional values; choosing from a set, comparing maps and regrouping sequences, for any element type. */
module Collections {
  datatype Option<T> = None | Some(value: T)

  lemma AnyOf<T>(s: set<T>) returns (x: T)
    requires s != {}
    ensures x in s
  {
    x :| x in s;
  }

  /** The next element of an iteration in some order. */
  method NextOf<T(==)>(todo: set<T>) returns (x: T)
    requires todo != {}
    ensures x in todo
  {
    x :| x in todo;
  }

  lemma Regroup<T>(a: seq<T>, b: seq<T>, c: seq<T>)
    ensures (a + b) + c == a + (b + c)
  {
  }

  /** A part of what comes next extends a prefix, and all of it leaves the rest. */
  lemma PartOfNext<T>(done: seq<T>, part: seq<T>, next: seq<T>, later: seq<T>)
    requires part <= next
    ensures done + part <= done + (next + later)
    ensures part == next ==> (done + part) + later == done + (next + later)
    ensures part != next ==> |done + part| < |done + (next + later)|
  {
    if |part| == |next| { assert part == next[..|part|] == next; }
    var all := done + (next + later);
    assert all[..|done + part|] == done + part by {
      assert (next + later)[..|part|] == part;
    }
  }

  lemma SameMap<K, V>(a: map<K, V>, b: map<K, V>)
    requires a.Keys == b.Keys && forall k :: k in a ==> a[k] == b[k]
    ensures a == b
  {
  }

  // ---------------------------------------------------------------- flattening

  function Flatten<T>(parts: seq<seq<T>>): seq<T> {
    if parts == [] then [] else parts[0] + Flatten(parts[1..])
  }

  lemma {:induction false} FlattenAppend<T>(a: seq<seq<T>>, b: seq<seq<T>>)
    ensures Flatten(a + b) == Flatten(a) + Flatten(b)
  {
    if a == [] {
      assert a + b == b && Flatten(b) == [] + Flatten(b);
    } else {
      var x, rest := a[0], a[1..];
      assert (a + b)[0] == x && (a + b)[1..] == rest + b;
      FlattenAppend(rest, b);
      Regroup(x, Flatten(rest), Flatten(b));
    }
  }
}
