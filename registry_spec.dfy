/** What the process registry promises, stated on values: the callbacks its
    observers receive, the order `std::map` walks its pids in, and how an
    observer leaves the list. */
module RegistrySpec {
  import opened Values

  /** `IRemoteProcess::enumState`. */
  datatype ProcessState = Constructed | Active | Deactivated

  /** Which `IRemoteProcess::INotification` callback was called. */
  datatype Event = Activation | Deactivation

  /** One callback: `sink` was told that the process with id `pid` was activated or deactivated. */
  datatype Notification<S> = Notification(sink: S, event: Event, pid: u32)

  /** No element occurs twice. */
  predicate NoDuplicates<S(==)>(s: seq<S>) {
    forall i, j | 0 <= i < j < |s| :: s[i] != s[j]
  }

  /** The number of times `x` occurs in `s`. */
  function Count<T(==)>(s: seq<T>, x: T): nat {
    multiset(s)[x]
  }

  // ---------------------------------------------------------------------------
  // Fan-out: Activated/Deactivated call every observer once, in list order.

  /** The callbacks of one walk over `observers`, front to back. */
  function FanOut<S>(observers: seq<S>, event: Event, pid: u32): seq<Notification<S>>
    decreases |observers|
  {
    if observers == [] then []
    else FanOut(observers[..|observers| - 1], event, pid) + [Notification(observers[|observers| - 1], event, pid)]
  }

  /** The fan-out calls the observers in list order, one call each. */
  lemma {:induction false} FanOutOrder<S>(observers: seq<S>, event: Event, pid: u32)
    ensures |FanOut(observers, event, pid)| == |observers|
    ensures forall i | 0 <= i < |observers| :: FanOut(observers, event, pid)[i] == Notification(observers[i], event, pid)
    decreases |observers|
  {
    if observers != [] {
      FanOutOrder(observers[..|observers| - 1], event, pid);
    }
  }

  /** With no observer listed twice, each listed observer hears about the
      event exactly once and nobody else hears anything. */
  lemma {:induction false} FanOutOnce<S>(observers: seq<S>, event: Event, pid: u32, n: Notification<S>)
    requires NoDuplicates(observers)
    ensures Count(FanOut(observers, event, pid), n) ==
      if n.sink in observers && n.event == event && n.pid == pid then 1 else 0
    decreases |observers|
  {
    if observers != [] {
      var front := observers[..|observers| - 1];
      var last := observers[|observers| - 1];
      assert NoDuplicates(front);
      FanOutOnce(front, event, pid, n);
      assert last !in front by {
        forall i | 0 <= i < |front| ensures front[i] != last {
          assert front[i] == observers[i];
        }
      }
      assert n.sink in observers <==> n.sink in front || n.sink == last by {
        assert observers == front + [last];
      }
    }
  }

  // ---------------------------------------------------------------------------
  // Ascending order: a std::map<uint32_t, ...> is walked from its least key up.

  /** The least element of a non-empty set of ids. */
  ghost function Least(keys: set<u32>): (m: u32)
    requires keys != {}
    ensures m in keys && forall k | k in keys :: m <= k
    decreases keys
  {
    var x :| x in keys;
    if keys - {x} == {} then
      assert forall k | k in keys :: k == x by {
        forall k | k in keys ensures k == x {
          assert k !in keys - {x};
        }
      }
      x
    else
      var m := Least(keys - {x});
      assert forall k | k in keys :: k == x || k in keys - {x};
      if x < m then x else m
  }

  /** The ids of `keys` in the order a `std::map` iterator visits them. */
  ghost function Ascending(keys: set<u32>): seq<u32>
    decreases |keys|
  {
    if keys == {} then [] else [Least(keys)] + Ascending(keys - {Least(keys)})
  }

  /** Any element no greater than all the others is the one the walk starts with. */
  lemma AscendingFirst(keys: set<u32>, m: u32)
    requires m in keys && forall k | k in keys :: m <= k
    ensures Ascending(keys) == [m] + Ascending(keys - {m})
  {
    assert Least(keys) == m;
  }

  /** The walk visits exactly the ids of the set. */
  lemma {:induction false} AscendingMembers(keys: set<u32>)
    ensures forall k :: k in Ascending(keys) <==> k in keys
    decreases |keys|
  {
    if keys != {} {
      var m := Least(keys);
      AscendingMembers(keys - {m});
      assert Ascending(keys) == [m] + Ascending(keys - {m});
    }
  }

  /** The walk visits the ids in strictly increasing order, so none twice. */
  lemma {:induction false} AscendingIncreasing(keys: set<u32>)
    ensures forall i, j | 0 <= i < j < |Ascending(keys)| :: Ascending(keys)[i] < Ascending(keys)[j]
    decreases |keys|
  {
    if keys != {} {
      var m := Least(keys);
      var rest := keys - {m};
      AscendingIncreasing(rest);
      AscendingMembers(rest);
      var s := Ascending(keys);
      var t := Ascending(rest);
      assert s == [m] + t;
      forall i, j | 0 <= i < j < |s| ensures s[i] < s[j] {
        if i == 0 {
          assert s[j] == t[j - 1] && t[j - 1] in rest;
        } else {
          assert s[i] == t[i - 1] && s[j] == t[j - 1];
        }
      }
    }
  }

  // ---------------------------------------------------------------------------
  // Register replays Activated to the new sink for every ACTIVE process.

  /** The callbacks a newly registered `sink` receives while the pids are
      walked in the order of `pids`: one Activated per ACTIVE process. */
  function Replay<S>(sink: S, pids: seq<u32>, states: map<u32, ProcessState>): seq<Notification<S>>
    decreases |pids|
  {
    if pids == [] then []
    else
      var first := if pids[0] in states && states[pids[0]] == Active then [Notification(sink, Activation, pids[0])] else [];
      first + Replay(sink, pids[1..], states)
  }

  /** One pid of the walk: its callback, if any, comes first. */
  lemma ReplayFirst<S>(sink: S, pid: u32, pids: seq<u32>, states: map<u32, ProcessState>)
    ensures Replay(sink, [pid] + pids, states) ==
      (if pid in states && states[pid] == Active then [Notification(sink, Activation, pid)] else [])
      + Replay(sink, pids, states)
  {
    assert ([pid] + pids)[1..] == pids;
  }

  /** The walk so far plus the rest of it is the whole walk, one pid at a time. */
  lemma ReplayStep<S>(done: seq<Notification<S>>, next: seq<Notification<S>>, sink: S, pid: u32, later: seq<u32>, states: map<u32, ProcessState>)
    requires next == done + if pid in states && states[pid] == Active then [Notification(sink, Activation, pid)] else []
    ensures next + Replay(sink, later, states) == done + Replay(sink, [pid] + later, states)
  {
    ReplayFirst(sink, pid, later, states);
  }

  /** Walking pids without repeats, the new sink hears exactly once about each
      ACTIVE process walked over, and about nothing else. */
  lemma {:induction false} ReplayOnce<S>(sink: S, pids: seq<u32>, states: map<u32, ProcessState>, n: Notification<S>)
    requires NoDuplicates(pids)
    ensures Count(Replay(sink, pids, states), n) ==
      if n.sink == sink && n.event == Activation && n.pid in pids && n.pid in states && states[n.pid] == Active then 1 else 0
    decreases |pids|
  {
    if pids != [] {
      assert NoDuplicates(pids[1..]) by {
        forall i, j | 0 <= i < j < |pids[1..]| ensures pids[1..][i] != pids[1..][j] {
          assert pids[1..][i] == pids[i + 1] && pids[1..][j] == pids[j + 1];
        }
      }
      ReplayOnce(sink, pids[1..], states, n);
      assert pids[0] !in pids[1..] by {
        forall i | 0 <= i < |pids[1..]| ensures pids[1..][i] != pids[0] {
          assert pids[1..][i] == pids[i + 1];
        }
      }
      assert n.pid in pids <==> n.pid == pids[0] || n.pid in pids[1..] by {
        assert pids == [pids[0]] + pids[1..];
      }
    }
  }

  /** A strictly increasing walk repeats no pid. */
  lemma IncreasingNoDuplicates(pids: seq<u32>)
    requires forall i, j | 0 <= i < j < |pids| :: pids[i] < pids[j]
    ensures NoDuplicates(pids)
  {
  }

  /** Register's replay, over the whole map: one Activated for each ACTIVE
      process in the map and for no other. */
  lemma RegisterReplaysActive<S>(sink: S, states: map<u32, ProcessState>, n: Notification<S>)
    ensures Count(Replay(sink, Ascending(states.Keys), states), n) ==
      if n.sink == sink && n.event == Activation && n.pid in states && states[n.pid] == Active then 1 else 0
  {
    AscendingIncreasing(states.Keys);
    AscendingMembers(states.Keys);
    IncreasingNoDuplicates(Ascending(states.Keys));
    ReplayOnce(sink, Ascending(states.Keys), states, n);
  }

  // ---------------------------------------------------------------------------
  // Unregister erases one observer from the list.

  /** `s` with every occurrence of `x` left out, the rest in order. */
  function Without<S(==)>(s: seq<S>, x: S): seq<S>
    decreases |s|
  {
    if s == [] then []
    else
      var first := if s[0] == x then [] else [s[0]];
      first + Without(s[1..], x)
  }

  /** Leaving `x` out removes it and keeps every other element. */
  lemma {:induction false} WithoutMembers<S>(s: seq<S>, x: S)
    ensures forall y :: y in Without(s, x) <==> y in s && y != x
    decreases |s|
  {
    if s != [] {
      WithoutMembers(s[1..], x);
      assert forall y :: y in s <==> y == s[0] || y in s[1..] by {
        assert s == [s[0]] + s[1..];
      }
    }
  }

  /** Leaving an element out of a list without repeats leaves a list without repeats. */
  lemma {:induction false} WithoutNoDuplicates<S>(s: seq<S>, x: S)
    requires NoDuplicates(s)
    ensures NoDuplicates(Without(s, x))
    decreases |s|
  {
    if s != [] {
      assert NoDuplicates(s[1..]) by {
        forall i, j | 0 <= i < j < |s[1..]| ensures s[1..][i] != s[1..][j] {
          assert s[1..][i] == s[i + 1] && s[1..][j] == s[j + 1];
        }
      }
      WithoutNoDuplicates(s[1..], x);
      WithoutMembers(s[1..], x);
      var rest := Without(s[1..], x);
      if s[0] != x {
        assert s[0] !in rest by {
          forall i | 0 <= i < |s[1..]| ensures s[1..][i] != s[0] {
            assert s[1..][i] == s[i + 1];
          }
        }
        var r := [s[0]] + rest;
        forall i, j | 0 <= i < j < |r| ensures r[i] != r[j] {
          if i == 0 {
            assert r[j] == rest[j - 1];
          } else {
            assert r[i] == rest[i - 1] && r[j] == rest[j - 1];
          }
        }
      }
    }
  }

  /** Erasing the element at `i`, which is `x`, from a list without repeats
      is leaving `x` out. */
  lemma {:induction false} EraseAt<S>(s: seq<S>, i: nat, x: S)
    requires NoDuplicates(s) && i < |s| && s[i] == x
    ensures s[..i] + s[i + 1..] == Without(s, x)
    decreases |s|
  {
    if i == 0 {
      assert x !in s[1..] by {
        forall j | 0 <= j < |s[1..]| ensures s[1..][j] != x {
          assert s[1..][j] == s[j + 1];
        }
      }
      WithoutAbsent(s[1..], x);
    } else {
      assert NoDuplicates(s[1..]) by {
        forall a, b | 0 <= a < b < |s[1..]| ensures s[1..][a] != s[1..][b] {
          assert s[1..][a] == s[a + 1] && s[1..][b] == s[b + 1];
        }
      }
      EraseAt(s[1..], i - 1, x);
      assert s[0] != x by {
        assert s[0] == s[0] && s[i] == x;
      }
      assert s[1..][..i - 1] + s[1..][i..] == s[1..i] + s[i + 1..];
      assert s[..i] + s[i + 1..] == [s[0]] + (s[1..i] + s[i + 1..]);
    }
  }

  /** Leaving out an element that is not there changes nothing. */
  lemma {:induction false} WithoutAbsent<S>(s: seq<S>, x: S)
    requires x !in s
    ensures Without(s, x) == s
    decreases |s|
  {
    if s != [] {
      WithoutAbsent(s[1..], x);
      assert s == [s[0]] + s[1..];
    }
  }
}
