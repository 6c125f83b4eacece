/**
 * The session's receive queue: decoded packages interleaved with the two connection sentinels, and
 * what the non-blocking `poll` and the asynchronous `apoll` take from it.
 */
module Queue {
  import opened Common
  import opened Packages

  /**
   * An entry of the queue. The connect sentinel is put in on every connect, so that a disconnect
   * sentinel found in the queue is never the only thing a reconnected session has seen.
   */
  datatype Entry = ConnectSentinel | DisconnectSentinel | Pkg(p: Package)

  /** What `apoll` comes back with: a package, the end of iteration, or (where it would suspend) nothing yet. */
  datatype Polled = Got(p: Package) | End | Blocked

  /** The packages of a queue, in order, without the sentinels. */
  function PackagesIn(q: seq<Entry>): (r: seq<Package>)
    ensures |r| <= |q|
  {
    if q == [] then []
    else (if q[0].Pkg? then [q[0].p] else []) + PackagesIn(q[1..])
  }

  /** The queue entries of a run of packages. */
  function Entries(ps: seq<Package>): (r: seq<Entry>)
    ensures |r| == |ps|
    ensures forall i :: 0 <= i < |ps| ==> r[i] == Pkg(ps[i])
  {
    if ps == [] then [] else [Pkg(ps[0])] + Entries(ps[1..])
  }

  /** `poll`: drop sentinels from the front; the first package, or nothing once the queue is empty. */
  function PollSpec(q: seq<Entry>): (r: (Option<Package>, seq<Entry>))
    ensures |r.1| < |q| || (q == [] && r == (None, []))
  {
    if q == [] then (None, [])
    else if q[0].Pkg? then (Some(q[0].p), q[1..])
    else PollSpec(q[1..])
  }

  /**
   * `apoll`: drop connect sentinels; a disconnect sentinel ends the iteration when it is the last entry
   * and is dropped otherwise (the device was reconnected meanwhile); on an empty queue it would wait.
   */
  function APollSpec(q: seq<Entry>): (r: (Polled, seq<Entry>))
    ensures |r.1| <= |q|
    ensures r.0.Got? ==> |r.1| < |q|
    ensures r.0.Blocked? || r.0.End? ==> r.1 == []
  {
    if q == [] then (Blocked, [])
    else match q[0]
      case ConnectSentinel => APollSpec(q[1..])
      case DisconnectSentinel => if |q| == 1 then (End, []) else APollSpec(q[1..])
      case Pkg(p) => (Got(p), q[1..])
  }

  /** `PackagesIn` distributes over concatenation. */
  lemma {:induction false} PackagesInAppend(a: seq<Entry>, b: seq<Entry>)
    ensures PackagesIn(a + b) == PackagesIn(a) + PackagesIn(b)
    decreases |a|
  {
    if a != [] {
      assert (a + b)[1..] == a[1..] + b;
      PackagesInAppend(a[1..], b);
    } else {
      assert a + b == b;
    }
  }

  /** The packages of the entries of `ps` are `ps`. */
  lemma {:induction false} PackagesInEntries(ps: seq<Package>)
    ensures PackagesIn(Entries(ps)) == ps
    decreases |ps|
  {
    if ps != [] {
      assert Entries(ps)[1..] == Entries(ps[1..]);
      PackagesInEntries(ps[1..]);
    }
  }

  /**
   * `poll` returns nothing exactly when the queue holds no package, and then empties it; otherwise it
   * returns the first package and leaves every later package queued, in order.
   */
  lemma {:induction false} PollTakesFirstPackage(q: seq<Entry>)
    ensures var (r, rest) := PollSpec(q);
      && (r.None? <==> PackagesIn(q) == [])
      && (r.None? ==> rest == [])
      && (r.Some? ==> r.value == PackagesIn(q)[0] && PackagesIn(rest) == PackagesIn(q)[1..])
    decreases |q|
  {
    if q == [] {
    } else if q[0].Pkg? {
      assert PackagesIn(q) == [q[0].p] + PackagesIn(q[1..]);
      assert PollSpec(q) == (Some(q[0].p), q[1..]);
    } else {
      PollTakesFirstPackage(q[1..]);
      assert PackagesIn(q) == PackagesIn(q[1..]);
      assert PollSpec(q) == PollSpec(q[1..]);
    }
  }

  /** `poll` only ever drops sentinels: what it leaves is a suffix of the queue. */
  lemma {:induction false} PollLeavesSuffix(q: seq<Entry>)
    ensures var rest := PollSpec(q).1;
      |rest| <= |q| && rest == q[|q| - |rest|..]
    decreases |q|
  {
    if q != [] && !q[0].Pkg? {
      PollLeavesSuffix(q[1..]);
    }
  }

  /**
   * `apoll` ends the iteration exactly when the queue holds no package and its last entry is a
   * disconnect sentinel; it would wait exactly when it holds no package and does not end with one;
   * otherwise it returns the first package, leaving every later package queued.
   */
  lemma {:induction false} APollCases(q: seq<Entry>)
    ensures var (r, rest) := APollSpec(q);
      && (r.End? <==> PackagesIn(q) == [] && q != [] && q[|q| - 1] == DisconnectSentinel)
      && (r.Blocked? <==> PackagesIn(q) == [] && (q == [] || q[|q| - 1] != DisconnectSentinel))
      && (r.Got? ==> r.p == PackagesIn(q)[0] && PackagesIn(rest) == PackagesIn(q)[1..])
    decreases |q|
  {
    if q == [] {
    } else if q[0].Pkg? {
      assert PackagesIn(q) == [q[0].p] + PackagesIn(q[1..]);
      assert APollSpec(q) == (Got(q[0].p), q[1..]);
    } else if |q| == 1 {
      assert PackagesIn(q) == [];
    } else {
      APollCases(q[1..]);
      assert PackagesIn(q) == PackagesIn(q[1..]);
      assert APollSpec(q) == APollSpec(q[1..]);
      assert q[1..][|q[1..]| - 1] == q[|q| - 1];
    }
  }

  /**
   * `apoll` takes entries from the front only: the queue is the entries it took followed by those it
   * left, and it took exactly one package, the one it returned, which is then the last entry taken.
   */
  lemma {:induction false} APollTakesFront(q: seq<Entry>)
    ensures var (r, rest) := APollSpec(q);
      && q == q[..|q| - |rest|] + rest
      && PackagesIn(q[..|q| - |rest|]) == (if r.Got? then [r.p] else [])
      && (r.Got? ==> q[|q| - |rest| - 1] == Pkg(r.p))
  {
    var rest := APollSpec(q).1;
    APollSuffix(q);
    APollTakenPackages(q);
    assert q == q[..|q| - |rest|] + q[|q| - |rest|..];
  }

  /** What `apoll` leaves is a suffix of the queue, after a returned package. */
  lemma {:induction false} APollSuffix(q: seq<Entry>)
    ensures var (r, rest) := APollSpec(q);
      && rest == q[|q| - |rest|..]
      && (r.Got? ==> q[|q| - |rest| - 1] == Pkg(r.p))
    decreases |q|
  {
    if q != [] && !q[0].Pkg? && |q| > 1 {
      APollSuffix(q[1..]);
      assert APollSpec(q) == APollSpec(q[1..]);
    }
  }

  /** The entries `apoll` takes hold exactly the package it returns. */
  lemma {:induction false} APollTakenPackages(q: seq<Entry>)
    ensures var (r, rest) := APollSpec(q);
      PackagesIn(q[..|q| - |rest|]) == (if r.Got? then [r.p] else [])
    decreases |q|
  {
    var (r, rest) := APollSpec(q);
    if q == [] {
    } else if q[0].Pkg? {
      assert q[..|q| - |rest|] == [q[0]];
      assert PackagesIn([q[0]]) == [q[0].p] + PackagesIn([]);
    } else if |q| == 1 {
      assert PackagesIn(q) == [] + PackagesIn(q[1..]);
    } else {
      APollTakenPackages(q[1..]);
      assert APollSpec(q) == APollSpec(q[1..]);
      SkipUntaken(q, |q| - |rest|);
    }
  }

  /** Taking a sentinel along with the first `n - 1` entries after it takes no more packages. */
  lemma SkipUntaken(q: seq<Entry>, n: nat)
    requires 1 <= n <= |q| && !q[0].Pkg?
    ensures PackagesIn(q[..n]) == PackagesIn(q[1..][..n - 1])
  {
    var d := q[1..][..n - 1];
    assert q[..n] == [q[0]] + d;
    assert ([q[0]] + d)[1..] == d;
  }

  /** One more package at the end is one more entry at the end. */
  lemma EntriesSnoc(ps: seq<Package>, p: Package)
    ensures Entries(ps + [p]) == Entries(ps) + [Pkg(p)]
  {
    var a := Entries(ps + [p]);
    var b := Entries(ps) + [Pkg(p)];
    assert |a| == |b|;
    forall i | 0 <= i < |a|
      ensures a[i] == b[i]
    {
      assert (ps + [p])[i] == if i < |ps| then ps[i] else p;
    }
  }

  /** The packages queued after `q0` by the time the queue is `q2`, across an intermediate queue `q1`. */
  lemma PackagesInGrow(q0: seq<Entry>, q1: seq<Entry>, q2: seq<Entry>)
    requires |q0| <= |q1| <= |q2| && q1[..|q0|] == q0 && q2[..|q1|] == q1
    ensures q2[..|q0|] == q0
    ensures PackagesIn(q2[|q0|..]) == PackagesIn(q1[|q0|..]) + PackagesIn(q2[|q1|..])
  {
    assert q2[|q0|..] == q1[|q0|..] + q2[|q1|..];
    PackagesInAppend(q1[|q0|..], q2[|q1|..]);
  }
}
