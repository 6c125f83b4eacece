/**
 * Callbacks of a device session. A registered callback is an object (`Listener`); each call of one is
 * recorded as a `Delivery` in the session's log. Listener sets are Python sets, iterated in no fixed
 * order, so what the session promises is stated per listener: the events it hears (`Heard`), in order.
 */
module Events {
  import opened Common
  import opened Packages

  /** The connection state a device reports to its state listeners. */
  datatype DeviceState = Disconnected | Connecting | Connected

  /** A registered callback; only its identity matters. */
  class Listener {
    constructor ()
    {
    }
  }

  /** What a callback is called with (besides the device). */
  datatype Event =
    | StateChanged(state: DeviceState)
    | RawChunk(data: seq<bv8>, timestamp: Option<int>)
    | Chunk(data: seq<bv8>, timestamp: Option<int>)
    | Received(p: Package, timestamp: Option<int>)

  /** One call of one callback. */
  datatype Delivery = Delivery(listener: Listener, event: Event)

  /** The events delivered to `l`, in the order of the log. */
  function Heard(log: seq<Delivery>, l: Listener): (r: seq<Event>)
    ensures |r| <= |log|
  {
    if log == [] then []
    else
      var last := log[|log| - 1];
      Heard(log[..|log| - 1], l) + if last.listener == l then [last.event] else []
  }

  /** The calls in `log` deliver `events`, in order, to every listener of `ls` and nothing to anyone else. */
  ghost predicate Delivers(log: seq<Delivery>, ls: set<Listener>, events: seq<Event>)
  {
    && (forall i :: 0 <= i < |log| ==> log[i].listener in ls)
    && (forall l :: l in ls ==> Heard(log, l) == events)
  }

  /** The events of the `Received` deliveries among `events`: the packages a package listener was given. */
  function PackagesOf(events: seq<Event>): (r: seq<Package>)
    ensures |r| <= |events|
  {
    if events == [] then []
    else PackagesOf(events[..|events| - 1]) + match events[|events| - 1]
      case Received(p, _) => [p]
      case _ => []
  }

  /** The event each package of `ps` is delivered as. */
  function ReceivedAll(ps: seq<Package>, timestamp: Option<int>): (r: seq<Event>)
    ensures |r| == |ps|
    ensures forall i :: 0 <= i < |ps| ==> r[i] == Received(ps[i], timestamp)
  {
    if ps == [] then [] else ReceivedAll(ps[..|ps| - 1], timestamp) + [Received(ps[|ps| - 1], timestamp)]
  }

  /** A listener hears what two consecutive stretches of the log deliver to it, one after the other. */
  lemma {:induction false} HeardAppend(a: seq<Delivery>, b: seq<Delivery>, l: Listener)
    ensures Heard(a + b, l) == Heard(a, l) + Heard(b, l)
    decreases |b|
  {
    if b == [] {
      assert a + b == a;
    } else {
      var b' := b[..|b| - 1];
      assert (a + b)[..|a + b| - 1] == a + b';
      HeardAppend(a, b', l);
    }
  }

  /** A listener no call of the log goes to hears nothing. */
  lemma {:induction false} HeardNothing(log: seq<Delivery>, l: Listener)
    requires forall i :: 0 <= i < |log| ==> log[i].listener != l
    ensures Heard(log, l) == []
    decreases |log|
  {
    if log != [] {
      HeardNothing(log[..|log| - 1], l);
    }
  }

  /** Deliveries to a set compose: the first stretch's events, then the second's. */
  lemma DeliversAppend(a: seq<Delivery>, b: seq<Delivery>, ls: set<Listener>, ea: seq<Event>, eb: seq<Event>)
    requires Delivers(a, ls, ea) && Delivers(b, ls, eb)
    ensures Delivers(a + b, ls, ea + eb)
  {
    forall l | l in ls
      ensures Heard(a + b, l) == ea + eb
    {
      HeardAppend(a, b, l);
    }
    forall i | 0 <= i < |a + b|
      ensures (a + b)[i].listener in ls
    {
      if i >= |a| {
        assert (a + b)[i] == b[i - |a|];
      }
    }
  }

  /** Calling one more listener `x` with `e` extends exactly what `x` hears. */
  lemma DeliversOneMore(log: seq<Delivery>, done: set<Listener>, x: Listener, e: Event)
    requires Delivers(log, done, [e]) && x !in done
    ensures Delivers(log + [Delivery(x, e)], done + {x}, [e])
  {
    var log' := log + [Delivery(x, e)];
    assert log'[..|log|] == log;
    HeardNothing(log, x);
  }

  /** The calls of a loop over the listener set `ls` that calls each with `e`, in whatever order the set yields. */
  method CallEach(ls: set<Listener>, e: Event) returns (calls: seq<Delivery>)
    ensures Delivers(calls, ls, [e])
  {
    var rest := ls;
    calls := [];
    while rest != {}
      invariant rest <= ls
      invariant Delivers(calls, ls - rest, [e])
      decreases rest
    {
      var l :| l in rest;
      DeliversOneMore(calls, ls - rest, l, e);
      assert (ls - rest) + {l} == ls - (rest - {l});
      calls := calls + [Delivery(l, e)];
      rest := rest - {l};
    }
    assert ls - rest == ls;
  }

  /** The packages a package listener is given by a run of `Received` events are those packages. */
  lemma {:induction false} PackagesOfReceived(ps: seq<Package>, timestamp: Option<int>)
    ensures PackagesOf(ReceivedAll(ps, timestamp)) == ps
    decreases |ps|
  {
    if ps != [] {
      var r := ReceivedAll(ps, timestamp);
      assert r[..|r| - 1] == ReceivedAll(ps[..|ps| - 1], timestamp);
      PackagesOfReceived(ps[..|ps| - 1], timestamp);
      assert ps[..|ps| - 1] + [ps[|ps| - 1]] == ps;
    }
  }

  /** `PackagesOf` distributes over concatenation. */
  lemma {:induction false} PackagesOfAppend(a: seq<Event>, b: seq<Event>)
    ensures PackagesOf(a + b) == PackagesOf(a) + PackagesOf(b)
    decreases |b|
  {
    if b == [] {
      assert a + b == a;
    } else {
      var b' := b[..|b| - 1];
      assert (a + b)[..|a + b| - 1] == a + b';
      PackagesOfAppend(a, b');
    }
  }
}
