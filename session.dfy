/**
 * A device session (`AbstractDevice`): connection state, the cached status and device-info packages
 * with their two latches, the receive queue, four listener sets, and the pipeline that turns each chunk
 * from the transport into queued packages.
 *
 * The transport enters as data: what it hands over while a caller awaits is a sequence of `Arrival`s,
 * and everything sent to it is recorded in `sent`. Where the source awaits and nothing more arrives,
 * the model stops and says so (`Pending`, `TimedOut`, `Blocked`).
 */
module Session {
  import opened Common
  import opened Packages
  import opened Codec
  import opened CodecProperties
  import opened Events
  import opened Queue

  /** The two transports; only BLE chunks carry real-time frames ahead of the stream. */
  datatype Transport = Ble | Usb

  /** What the transport hands to the session: a chunk of bytes with its receive time, or the loss of the link. */
  datatype Arrival = Bytes(data: seq<bv8>, timestamp: Option<int>) | Lost

  datatype InitOutcome = Ready | Pending | DeviceIsRecording | DeviceIsStreaming

  datatype AckOutcome = Acked(p: Package) | TimedOut

  /** The fields `_feed` keeps up to date from the packages it decodes. */
  datatype Cache = Cache(
    name: string,
    status: Option<Package>,
    deviceInfo: Option<Package>,
    statusReceived: bool,
    deviceInfoReceived: bool)

  /** A set latch has its package; cached packages are of their kind. */
  ghost predicate Consistent(c: Cache)
  {
    && (c.statusReceived ==> c.status.Some?)
    && (c.status.Some? ==> c.status.value.body.Status?)
    && (c.deviceInfoReceived ==> c.deviceInfo.Some?)
    && (c.deviceInfo.Some? ==> c.deviceInfo.value.body.DeviceInfo?)
  }

  /** The cache after one decoded package: device info and status are kept and their latches set. */
  function Observe(c: Cache, p: Package): (r: Cache)
    ensures Consistent(c) ==> Consistent(r)
    ensures c.statusReceived ==> r.statusReceived
    ensures c.deviceInfoReceived ==> r.deviceInfoReceived
  {
    match p.body
    case DeviceInfo(serial) => c.(deviceInfo := Some(p), name := "IMU_" + serial, deviceInfoReceived := true)
    case Status(_) => c.(status := Some(p), statusReceived := true)
    case _ => c
  }

  /** The cache after a run of decoded packages, in order. */
  function ObserveAll(c: Cache, ps: seq<Package>): (r: Cache)
    ensures Consistent(c) ==> Consistent(r)
    ensures c.statusReceived ==> r.statusReceived
    ensures c.deviceInfoReceived ==> r.deviceInfoReceived
  {
    if ps == [] then c else Observe(ObserveAll(c, ps[..|ps| - 1]), ps[|ps| - 1])
  }

  /**
   * The clock-roundtrip backfill: the host receive time is filled in when a receive time is known and
   * the field is still unset (zero). Every other package passes unchanged.
   */
  function Stamp(p: Package, timestamp: Option<int>): (r: Package)
    ensures r.header == p.header && r.name == p.name
    ensures !p.body.ClockRoundtrip? ==> r == p
  {
    if p.body.ClockRoundtrip? && timestamp.Some? && p.body.hostReceiveTimestamp == 0 then
      p.(body := p.body.(hostReceiveTimestamp := timestamp.value))
    else p
  }

  function StampAll(ps: seq<Package>, timestamp: Option<int>): (r: seq<Package>)
    ensures |r| == |ps|
    ensures forall i :: 0 <= i < |ps| ==> r[i] == Stamp(ps[i], timestamp)
  {
    if ps == [] then [] else StampAll(ps[..|ps| - 1], timestamp) + [Stamp(ps[|ps| - 1], timestamp)]
  }

  /** What one chunk does to the codec: the bytes the unpacker is fed, the packages decoded, the end state. */
  datatype FeedEffect = FeedEffect(
    remainder: Option<seq<bv8>>,
    packages: seq<Package>,
    codec: CodecState,
    outcome: Outcome<ParseError>)

  /**
   * The codec side of `_feed`: with real-time extraction, the real-time frames are taken off the chunk
   * first (a failure there ends the call, with the frames before it queued); the rest is fed and the
   * iterator drained. `remainder` is None when extraction failed and nothing was fed.
   */
  function FeedSpec(reg: Registry, s: CodecState, data: seq<bv8>, timestamp: Option<int>, extractRt: bool): (r: FeedEffect)
    ensures !extractRt ==> r.remainder == Some(data)
    ensures r.remainder.Some? ==> |r.remainder.value| <= |data| && r.remainder.value == data[|data| - |r.remainder.value|..]
  {
    if extractRt then
      var (rt, rest) := ExtractRt(reg, data, timestamp);
      var s1 := s.(rt := s.rt + rt);
      match rest
      case Failure(e) => FeedEffect(None, [], s1, Fail(e))
      case Success(remainder) => ParseChunk(reg, s1, remainder)
    else ParseChunk(reg, s, data)
  }

  /** Feeding `data` to the unpacker and draining it. */
  function ParseChunk(reg: Registry, s: CodecState, data: seq<bv8>): (r: FeedEffect)
    ensures r.remainder == Some(data)
  {
    var (ps, s1, o) := Drain(reg, s.(buffer := s.buffer + data));
    FeedEffect(Some(data), ps, s1, o)
  }

  /**
   * The packages of an aborted stream that the abort-streaming drain throws away: any class whose name
   * starts with `DataFull` or `DataQuat`, and three burst/byte-stream classes.
   */
  predicate IsDataPackage(name: string)
  {
    "DataFull" <= name || "DataQuat" <= name || name in {"DataRawBurst", "DataAccZBurst", "DataFsBytes"}
  }

  /** The acknowledgement that ends the abort-streaming drain. */
  predicate IsAckStop(reg: Registry, p: Package)
  {
    p.header == reg.headers.ackStopStreamingAndClearBuffer
  }

  /** The packages of `ps` that are not data packages, in order. */
  function NonData(ps: seq<Package>): (r: seq<Package>)
    ensures |r| <= |ps|
  {
    if ps == [] then []
    else NonData(ps[..|ps| - 1]) + if IsDataPackage(ps[|ps| - 1].name) then [] else [ps[|ps| - 1]]
  }

  /** Whether `q` resolves `sendAndAwaitAck` for `sent`: of exactly the awaited class, or an error about `sent`. */
  predicate Resolves(ackName: string, sent: Package, q: Package)
  {
    q.name == ackName || (q.name == "SensorError" && q.body.SensorErrorBody? && q.body.command == sent.header)
  }

  /** The first package of `ps` that resolves the wait, if any. */
  function FirstMatch(ackName: string, sent: Package, ps: seq<Package>): (r: Option<Package>)
    ensures r.Some? ==> r.value in ps && Resolves(ackName, sent, r.value)
  {
    if ps == [] then None
    else if Resolves(ackName, sent, ps[0]) then Some(ps[0])
    else FirstMatch(ackName, sent, ps[1..])
  }

  /** A listener outside `ls` hears nothing from deliveries to `ls`. */
  lemma NotDelivered(log: seq<Delivery>, ls: set<Listener>, events: seq<Event>, l: Listener)
    requires Delivers(log, ls, events) && l !in ls
    ensures Heard(log, l) == []
  {
    HeardNothing(log, l);
  }

  /** How one run of `_feed` shows in the log, seen by a listener that is only a package listener. */
  lemma HeardIsEnqueued(raw: seq<Delivery>, chunk: seq<Delivery>, received: seq<Delivery>,
                        packageListeners: set<Listener>, ps: seq<Package>, timestamp: Option<int>, l: Listener)
    requires Heard(raw, l) == [] && Heard(chunk, l) == []
    requires Delivers(received, packageListeners, ReceivedAll(ps, timestamp)) && l in packageListeners
    ensures PackagesOf(Heard(raw + chunk + received, l)) == PackagesIn(Entries(ps))
  {
    HeardAppend(raw + chunk, received, l);
    HeardAppend(raw, chunk, l);
    assert Heard(raw + chunk + received, l) == ReceivedAll(ps, timestamp);
    PackagesOfReceived(ps, timestamp);
    PackagesInEntries(ps);
  }

  /** What a listener that is only a package listener is given by one run of `_feed`: its packages. */
  lemma FeedHeard(raw: seq<Delivery>, chunk: seq<Delivery>, received: seq<Delivery>,
                  rawListeners: set<Listener>, chunkListeners: set<Listener>, packageListeners: set<Listener>,
                  data: seq<bv8>, timestamp: Option<int>, extractRt: bool, f: FeedEffect, l: Listener)
    requires if extractRt then Delivers(raw, rawListeners, [RawChunk(data, timestamp)]) else raw == []
    requires if f.remainder.Some? then Delivers(chunk, chunkListeners, [Chunk(f.remainder.value, timestamp)])
             else chunk == []
    requires Delivers(received, packageListeners, ReceivedAll(StampAll(f.packages, timestamp), timestamp))
    requires l in packageListeners && l !in rawListeners && l !in chunkListeners
    ensures PackagesOf(Heard(raw + chunk + received, l)) == StampAll(f.packages, timestamp)
  {
    if extractRt {
      NotDelivered(raw, rawListeners, [RawChunk(data, timestamp)], l);
    }
    if f.remainder.Some? {
      NotDelivered(chunk, chunkListeners, [Chunk(f.remainder.value, timestamp)], l);
    }
    HeardIsEnqueued(raw, chunk, received, packageListeners, StampAll(f.packages, timestamp), timestamp, l);
    PackagesInEntries(StampAll(f.packages, timestamp));
  }

  /** All fields of a device but its log: what a method may change is stated as an update of these. */
  datatype DeviceFields = DeviceFields(
    state: DeviceState,
    cache: Cache,
    queue: seq<Entry>,
    stateListeners: set<Listener>,
    dataWithRtListeners: set<Listener>,
    dataListeners: set<Listener>,
    packageListeners: set<Listener>,
    sent: seq<Package>)

  /** The fields after the packages `ps`, decoded from one chunk received at `timestamp`, went through `_feed`'s loop. */
  function Absorbed(f: DeviceFields, ps: seq<Package>, timestamp: Option<int>): (r: DeviceFields)
  {
    f.(cache := ObserveAll(f.cache, ps), queue := f.queue + Entries(StampAll(ps, timestamp)))
  }

  /** What arrivals act on: the connection state, the cache, the receive queue and the unpacker. */
  datatype Link = Link(state: DeviceState, cache: Cache, queue: seq<Entry>, codec: CodecState)

  /**
   * The effect of one arrival. A chunk goes through `_feed` (with real-time extraction over BLE): the
   * cache observes the decoded packages and they are queued with their receive time filled in. A lost
   * link disconnects the session and queues the disconnect sentinel, except that the USB reader ignores
   * a loss once the session is disconnected.
   */
  function ArriveSpec(reg: Registry, transport: Transport, k: Link, a: Arrival): (r: Link)
    ensures Consistent(k.cache) ==> Consistent(r.cache)
    ensures k.cache.statusReceived ==> r.cache.statusReceived
    ensures k.cache.deviceInfoReceived ==> r.cache.deviceInfoReceived
    ensures |k.queue| <= |r.queue| && r.queue[..|k.queue|] == k.queue
    ensures r.state == k.state || r.state == Disconnected
  {
    match a
    case Bytes(data, timestamp) =>
      var f := FeedSpec(reg, k.codec, data, timestamp, transport == Ble);
      k.(cache := ObserveAll(k.cache, f.packages), queue := k.queue + Entries(StampAll(f.packages, timestamp)),
         codec := f.codec)
    case Lost =>
      if transport == Usb && k.state == Disconnected then k
      else k.(state := Disconnected, queue := k.queue + [DisconnectSentinel])
  }

  /** The latch `init` awaits: device info, or (without `deviceInfo`) status. */
  predicate Latched(k: Link, deviceInfo: bool)
  {
    if deviceInfo then k.cache.deviceInfoReceived else k.cache.statusReceived
  }

  /** No run of fewer than `n` of the arrivals sets the latch. */
  ghost predicate UnlatchedBefore(reg: Registry, transport: Transport, k: Link, arrivals: seq<Arrival>, n: nat, deviceInfo: bool)
    requires n <= |arrivals|
  {
    forall j :: 0 <= j < n ==> !Latched(ArriveAll(reg, transport, k, arrivals[..j]), deviceInfo)
  }

  lemma UnlatchedNext(reg: Registry, transport: Transport, k: Link, arrivals: seq<Arrival>, n: nat, deviceInfo: bool)
    requires n < |arrivals| && UnlatchedBefore(reg, transport, k, arrivals, n, deviceInfo)
    requires !Latched(ArriveAll(reg, transport, k, arrivals[..n]), deviceInfo)
    ensures UnlatchedBefore(reg, transport, k, arrivals, n + 1, deviceInfo)
  {
  }
  /**
   * A latch wait over `arrivals` from `k`: the first `n` were handled, giving `r`; it stopped at the first
   * point where the latch was set, or with the arrivals exhausted.
   */
  ghost predicate Waited(reg: Registry, transport: Transport, k: Link, arrivals: seq<Arrival>, n: nat, r: Link, deviceInfo: bool)
  {
    && n <= |arrivals|
    && r == ArriveAll(reg, transport, k, arrivals[..n])
    && (Latched(r, deviceInfo) || n == |arrivals|)
    && UnlatchedBefore(reg, transport, k, arrivals, n, deviceInfo)
  }


  /**
   * No run of fewer than `n` of the arrivals queues, after what `k` had queued, a package that resolves
   * the wait of `sendAndAwaitAck` for `sent`.
   */
  ghost predicate UnresolvedBefore(reg: Registry, transport: Transport, k: Link, arrivals: seq<Arrival>, n: nat,
                                   ackName: string, sent: Package)
    requires n <= |arrivals|
  {
    forall j :: 0 <= j < n ==>
      FirstMatch(ackName, sent, PackagesIn(ArriveAll(reg, transport, k, arrivals[..j]).queue[|k.queue|..])).None?
  }

  lemma UnresolvedNext(reg: Registry, transport: Transport, k: Link, arrivals: seq<Arrival>, n: nat,
                       ackName: string, sent: Package)
    requires n < |arrivals| && UnresolvedBefore(reg, transport, k, arrivals, n, ackName, sent)
    requires FirstMatch(ackName, sent, PackagesIn(ArriveAll(reg, transport, k, arrivals[..n]).queue[|k.queue|..])).None?
    ensures UnresolvedBefore(reg, transport, k, arrivals, n + 1, ackName, sent)
  {
  }

  /** The effect of a run of arrivals, handled in order. */
  function ArriveAll(reg: Registry, transport: Transport, k: Link, arrivals: seq<Arrival>): (r: Link)
    ensures Consistent(k.cache) ==> Consistent(r.cache)
    ensures k.cache.statusReceived ==> r.cache.statusReceived
    ensures k.cache.deviceInfoReceived ==> r.cache.deviceInfoReceived
    ensures |k.queue| <= |r.queue| && r.queue[..|k.queue|] == k.queue
    decreases |arrivals|
  {
    if arrivals == [] then k
    else
      var m := ArriveAll(reg, transport, k, arrivals[..|arrivals| - 1]);
      var r := ArriveSpec(reg, transport, m, arrivals[|arrivals| - 1]);
      assert r.queue[..|k.queue|] == r.queue[..|m.queue|][..|k.queue|];
      r
  }

  class Device {
    const reg: Registry
    const transport: Transport
    const unpacker: Unpacker
    var name: string
    var state: DeviceState
    var status: Option<Package>
    var deviceInfo: Option<Package>
    var statusReceived: bool
    var deviceInfoReceived: bool
    var queue: seq<Entry>
    var stateListeners: set<Listener>
    var dataWithRtListeners: set<Listener>
    var dataListeners: set<Listener>
    var packageListeners: set<Listener>
    /** Every listener call made so far, in order. */
    var log: seq<Delivery>
    /** Every package handed to the transport so far, in order. */
    var sent: seq<Package>

    ghost predicate Valid()
      reads this
    {
      unpacker.reg == reg && Consistent(CacheOf())
    }

    ghost function CacheOf(): Cache
      reads this
    {
      Cache(name, status, deviceInfo, statusReceived, deviceInfoReceived)
    }

    ghost function Fields(): DeviceFields
      reads this
    {
      DeviceFields(state, CacheOf(), queue, stateListeners, dataWithRtListeners, dataListeners, packageListeners, sent)
    }

    /** What arrivals act on. */
    ghost function LinkOf(): Link
      reads this, unpacker
    {
      Link(state, CacheOf(), queue, unpacker.State())
    }

    /** A listener that is only a package listener, such as the one `sendAndAwaitAck` registers. */
    ghost predicate OnlyPackageListener(l: Listener)
      reads this
    {
      l in packageListeners && l !in stateListeners && l !in dataWithRtListeners && l !in dataListeners
    }

    /** The four listener sets. */
    ghost function Listeners(): (set<Listener>, set<Listener>, set<Listener>, set<Listener>)
      reads this
    {
      (stateListeners, dataWithRtListeners, dataListeners, packageListeners)
    }

    /** A new, disconnected session; its unpacker resynchronises on garbage. */
    constructor (reg: Registry, transport: Transport)
      ensures Valid() && fresh(unpacker)
      ensures this.reg == reg && this.transport == transport
      ensures unpacker.State() == CodecState([], [], true, false, None)
      ensures Fields() == DeviceFields(Disconnected, Cache("", None, None, false, false), [], {}, {}, {}, {}, [])
      ensures log == []
    {
      this.reg := reg;
      this.transport := transport;
      unpacker := new Unpacker(reg, None, true);
      name := "";
      state := Disconnected;
      status := None;
      deviceInfo := None;
      statusReceived := false;
      deviceInfoReceived := false;
      queue := [];
      stateListeners := {};
      dataWithRtListeners := {};
      dataListeners := {};
      packageListeners := {};
      log := [];
      sent := [];
    }

    /** Calls every listener of `ls` once with `e`, in some order. */
    method Notify(ls: set<Listener>, e: Event) returns (ghost calls: seq<Delivery>)
      modifies this
      ensures log == old(log) + calls && Delivers(calls, ls, [e])
      ensures Fields() == old(Fields())
    {
      var made := CallEach(ls, e);
      log := log + made;
      calls := made;
    }

    method AddStateListener(l: Listener)
      modifies this
      ensures Fields() == old(Fields()).(stateListeners := old(stateListeners) + {l})
      ensures log == old(log)
    {
      stateListeners := stateListeners + {l};
    }

    /**
     * Unregisters a listener. `registered` is false for one that is not registered, where the source
     * raises `KeyError`; nothing changes then.
     */
    method RemoveStateListener(l: Listener) returns (registered: bool)
      modifies this
      ensures registered <==> l in old(stateListeners)
      ensures Fields() == old(Fields()).(stateListeners := old(stateListeners) - {l})
      ensures log == old(log)
    {
      registered := l in stateListeners;
      if registered {
        stateListeners := stateListeners - {l};
      }
    }

    method AddDataWithRtListener(l: Listener)
      modifies this
      ensures Fields() == old(Fields()).(dataWithRtListeners := old(dataWithRtListeners) + {l})
      ensures log == old(log)
    {
      dataWithRtListeners := dataWithRtListeners + {l};
    }

    /**
     * Unregisters a listener. `registered` is false for one that is not registered, where the source
     * raises `KeyError`; nothing changes then.
     */
    method RemoveDataWithRtListener(l: Listener) returns (registered: bool)
      modifies this
      ensures registered <==> l in old(dataWithRtListeners)
      ensures Fields() == old(Fields()).(dataWithRtListeners := old(dataWithRtListeners) - {l})
      ensures log == old(log)
    {
      registered := l in dataWithRtListeners;
      if registered {
        dataWithRtListeners := dataWithRtListeners - {l};
      }
    }

    method AddDataListener(l: Listener)
      modifies this
      ensures Fields() == old(Fields()).(dataListeners := old(dataListeners) + {l})
      ensures log == old(log)
    {
      dataListeners := dataListeners + {l};
    }

    /**
     * Unregisters a listener. `registered` is false for one that is not registered, where the source
     * raises `KeyError`; nothing changes then.
     */
    method RemoveDataListener(l: Listener) returns (registered: bool)
      modifies this
      ensures registered <==> l in old(dataListeners)
      ensures Fields() == old(Fields()).(dataListeners := old(dataListeners) - {l})
      ensures log == old(log)
    {
      registered := l in dataListeners;
      if registered {
        dataListeners := dataListeners - {l};
      }
    }

    method AddPackageListener(l: Listener)
      modifies this
      ensures Fields() == old(Fields()).(packageListeners := old(packageListeners) + {l})
      ensures log == old(log)
    {
      packageListeners := packageListeners + {l};
    }

    /**
     * Unregisters a listener. `registered` is false for one that is not registered, where the source
     * raises `KeyError`; nothing changes then.
     */
    method RemovePackageListener(l: Listener) returns (registered: bool)
      modifies this
      ensures registered <==> l in old(packageListeners)
      ensures Fields() == old(Fields()).(packageListeners := old(packageListeners) - {l})
      ensures log == old(log)
    {
      registered := l in packageListeners;
      if registered {
        packageListeners := packageListeners - {l};
      }
    }

    /** Hands a package to the transport (write and flush are not modelled further). */
    method Send(p: Package)
      modifies this
      ensures Fields() == old(Fields()).(sent := old(sent) + [p])
      ensures log == old(log)
    {
      sent := sent + [p];
    }

    /**
     * The transports' `connect`, once the link is up: both latches cleared, the state connected and
     * reported, and one connect sentinel queued. BLE reports `connecting` first; the USB transport
     * insists on being disconnected.
     */
    method Connect() returns (ghost calls: seq<Delivery>)
      requires Valid()
      requires transport == Usb ==> state == Disconnected
      modifies this
      ensures Valid()
      ensures Fields() == old(Fields()).(
        state := Connected,
        cache := old(CacheOf()).(statusReceived := false, deviceInfoReceived := false),
        queue := old(queue) + [ConnectSentinel])
      ensures log == old(log) + calls
      ensures Delivers(calls, stateListeners,
        if transport == Ble then [StateChanged(Connecting), StateChanged(Connected)] else [StateChanged(Connected)])
    {
      calls := [];
      if transport == Ble {
        state := Connecting;
        calls := Notify(stateListeners, StateChanged(Connecting));
      }
      deviceInfoReceived := false;
      statusReceived := false;
      state := Connected;
      var more := Notify(stateListeners, StateChanged(Connected));
      AppendAssoc(old(log), calls, more);
      if transport == Ble {
        DeliversAppend(calls, more, stateListeners, [StateChanged(Connecting)], [StateChanged(Connected)]);
      } else {
        assert calls + more == more;
      }
      calls := calls + more;
      queue := queue + [ConnectSentinel];
    }

    /**
     * The transports' `disconnect`. Nothing happens when the session is already disconnected. Otherwise
     * the state becomes disconnected and is reported; the USB transport also queues the disconnect
     * sentinel, while over BLE that is left to the link-lost callback (`OnTransportLost`).
     */
    method Disconnect() returns (ghost calls: seq<Delivery>)
      modifies this
      ensures old(state) == Disconnected ==> Fields() == old(Fields()) && calls == []
      ensures old(state) != Disconnected ==>
        Fields() == old(Fields()).(state := Disconnected,
                                   queue := old(queue) + if transport == Usb then [DisconnectSentinel] else [])
        && Delivers(calls, stateListeners, [StateChanged(Disconnected)])
      ensures log == old(log) + calls
    {
      calls := [];
      if state == Disconnected {
        return;
      }
      if transport == Usb {
        calls := LinkDown();
      } else {
        state := Disconnected;
        calls := Notify(stateListeners, StateChanged(Disconnected));
        assert queue + [] == queue;
      }
    }

    /**
     * The transport reporting a lost link. BLE's disconnect callback always applies it; the USB reader
     * hands it on only while the session is not disconnected.
     */
    method OnTransportLost() returns (ghost calls: seq<Delivery>)
      modifies this
      ensures transport == Usb && old(state) == Disconnected ==> Fields() == old(Fields()) && calls == []
      ensures transport == Ble || old(state) != Disconnected ==>
        Fields() == old(Fields()).(state := Disconnected, queue := old(queue) + [DisconnectSentinel])
        && Delivers(calls, stateListeners, [StateChanged(Disconnected)])
      ensures log == old(log) + calls
    {
      calls := [];
      if transport == Usb && state == Disconnected {
        return;
      }
      calls := LinkDown();
    }

    method LinkDown() returns (ghost calls: seq<Delivery>)
      modifies this
      ensures Fields() == old(Fields()).(state := Disconnected, queue := old(queue) + [DisconnectSentinel])
      ensures Delivers(calls, stateListeners, [StateChanged(Disconnected)])
      ensures log == old(log) + calls
    {
      state := Disconnected;
      calls := Notify(stateListeners, StateChanged(Disconnected));
      queue := queue + [DisconnectSentinel];
    }

    /** `poll`: the first queued package, dropping sentinels before it; None once the queue is empty. */
    method Poll() returns (r: Option<Package>)
      modifies this
      ensures (r, queue) == PollSpec(old(queue))
      ensures Fields() == old(Fields()).(queue := queue) && log == old(log)
    {
      while queue != []
        invariant PollSpec(queue) == PollSpec(old(queue))
        invariant Fields() == old(Fields()).(queue := queue) && log == old(log)
        decreases |queue|
      {
        var e := queue[0];
        queue := queue[1..];
        if e.Pkg? {
          return Some(e.p);
        }
      }
      return None;
    }

    /**
     * `apoll` up to the point where it would suspend: connect sentinels are dropped, a disconnect
     * sentinel ends the iteration only when nothing follows it.
     */
    method APoll() returns (r: Polled)
      modifies this
      ensures (r, queue) == APollSpec(old(queue))
      ensures Fields() == old(Fields()).(queue := queue) && log == old(log)
      ensures LinkOf() == old(LinkOf()).(queue := queue)
    {
      while true
        invariant APollSpec(queue) == APollSpec(old(queue))
        invariant Fields() == old(Fields()).(queue := queue) && log == old(log)
        decreases |queue|
      {
        if queue == [] {
          return Blocked;
        }
        var e := queue[0];
        queue := queue[1..];
        match e
        case ConnectSentinel =>
        case DisconnectSentinel =>
          if queue == [] {
            return End;
          }
        case Pkg(p) =>
          return Got(p);
      }
    }

    /**
     * `_feed`: raw-chunk listeners (BLE only), real-time extraction, chunk listeners with what is left,
     * then every package the unpacker yields updates the cache, gets its receive time filled in, is
     * given to the package listeners and is queued, in decode order. A parse error ends the call.
     */
    method Feed(data: seq<bv8>, timestamp: Option<int>, extractRt: bool)
      returns (o: Outcome<ParseError>, ghost raw: seq<Delivery>, ghost chunk: seq<Delivery>, ghost received: seq<Delivery>)
      requires Valid()
      modifies this, unpacker
      ensures Valid()
      ensures var f := FeedSpec(reg, old(unpacker.State()), data, timestamp, extractRt);
        && o == f.outcome
        && unpacker.State() == f.codec
        && Fields() == Absorbed(old(Fields()), f.packages, timestamp)
        && log == old(log) + raw + chunk + received
        && (if extractRt then Delivers(raw, dataWithRtListeners, [RawChunk(data, timestamp)]) else raw == [])
        && (if f.remainder.Some? then Delivers(chunk, dataListeners, [Chunk(f.remainder.value, timestamp)])
            else chunk == [])
        && Delivers(received, packageListeners, ReceivedAll(StampAll(f.packages, timestamp), timestamp))
    {
      raw := [];
      chunk := [];
      received := [];
      var rest := data;
      assert old(log) + raw == old(log);
      if extractRt {
        raw := Notify(dataWithRtListeners, RawChunk(data, timestamp));
        var e := unpacker.ExtractRtPackages(data, timestamp);
        if e.Failure? {
          AbsorbedNothing(old(Fields()), timestamp);
          assert log + chunk + received == log;
          return Fail(e.error), raw, chunk, received;
        }
        rest := e.value;
      }
      chunk := Notify(dataListeners, Chunk(rest, timestamp));
      ghost var s0 := unpacker.State();
      assert FeedSpec(reg, old(unpacker.State()), data, timestamp, extractRt) == ParseChunk(reg, s0, rest);
      unpacker.Feed(rest);
      o, received := DrainIntoQueue(timestamp);
    }

    /** The loop of `_feed`: calls the iterator until it stops or fails. */
    method DrainIntoQueue(timestamp: Option<int>) returns (o: Outcome<ParseError>, ghost received: seq<Delivery>)
      requires Valid()
      modifies this, unpacker
      ensures Valid()
      ensures var (ps, s1, out) := Drain(reg, old(unpacker.State()));
        && o == out
        && unpacker.State() == s1
        && Fields() == Absorbed(old(Fields()), ps, timestamp)
        && log == old(log) + received
        && Delivers(received, packageListeners, ReceivedAll(StampAll(ps, timestamp), timestamp))
    {
      ghost var s0 := unpacker.State();
      ghost var f0 := Fields();
      ghost var log0 := log;
      ghost var done: seq<Package> := [];
      received := [];
      DrainsViaStart(reg, s0);
      AbsorbedNothing(f0, timestamp);
      ghost var u := unpacker.State();
      var r := unpacker.Next();
      while r.Yield?
        invariant Valid()
        invariant DrainsVia(reg, s0, done, u) && Step(reg, u) == (r, unpacker.State())
        invariant Fields() == Absorbed(f0, done, timestamp)
        invariant log == log0 + received
        invariant Delivers(received, packageListeners, ReceivedAll(StampAll(done, timestamp), timestamp))
        decreases Measure(u)
      {
        var p := r.p;
        DrainsViaYield(reg, s0, done, u, p, unpacker.State());
        var calls := Receive(p, timestamp);
        DrainStep(packageListeners, f0, done, p, timestamp, log0, received, calls);
        received := received + calls;
        done := done + [p];
        u := unpacker.State();
        r := unpacker.Next();
      }
      DrainsViaEnd(reg, s0, done, u, r, unpacker.State());
      o := if r.Stop? then Pass else Fail(r.error);
    }

    /**
     * The per-package part of `_feed`'s loop: cache and latches, the clock-roundtrip backfill, the
     * package listeners, then the queue.
     */
    method Receive(p: Package, timestamp: Option<int>) returns (ghost calls: seq<Delivery>)
      requires Valid()
      modifies this
      ensures Valid()
      ensures Fields() == Absorbed(old(Fields()), [p], timestamp)
      ensures log == old(log) + calls
      ensures Delivers(calls, packageListeners, [Received(Stamp(p, timestamp), timestamp)])
    {
      ghost var f0 := Fields();
      Note(p);
      var q := p;
      if p.body.ClockRoundtrip? && timestamp.Some? && p.body.hostReceiveTimestamp == 0 {
        q := p.(body := p.body.(hostReceiveTimestamp := timestamp.value));
      }
      calls := Notify(packageListeners, Received(q, timestamp));
      queue := queue + [Pkg(q)];
      AbsorbedOne(f0, p, timestamp);
    }

    /** Keeps a decoded device-info or status package and sets its latch. */
    method Note(p: Package)
      requires Valid()
      modifies this
      ensures Valid()
      ensures Fields() == old(Fields()).(cache := Observe(old(CacheOf()), p)) && log == old(log)
    {
      match p.body {
        case DeviceInfo(serial) =>
          deviceInfo := Some(p);
          name := "IMU_" + serial;
          deviceInfoReceived := true;
        case Status(_) =>
          status := Some(p);
          statusReceived := true;
        case _ =>
      }
    }

    /**
     * One thing the transport hands over: a BLE notification or a USB read is fed (BLE chunks with
     * real-time extraction); a lost link is reported. Returns the packages queued meanwhile, which are
     * exactly what a listener registered only for packages is given.
     */
    method Arrive(a: Arrival) returns (delivered: seq<Package>, ghost calls: seq<Delivery>)
      requires Valid()
      modifies this, unpacker
      ensures Valid()
      ensures LinkOf() == ArriveSpec(reg, transport, old(LinkOf()), a)
      ensures Listeners() == old(Listeners()) && sent == old(sent)
      ensures delivered == PackagesIn(queue[|old(queue)|..])
      ensures log == old(log) + calls
      ensures forall l :: OnlyPackageListener(l) ==> PackagesOf(Heard(calls, l)) == delivered
    {
      match a {
        case Bytes(data, timestamp) =>
          delivered, calls := ArriveChunk(data, timestamp);
        case Lost =>
          delivered, calls := ArriveLost();
      }
    }

    /** A chunk from the transport goes through `_feed`, with real-time extraction over BLE. */
    method ArriveChunk(data: seq<bv8>, timestamp: Option<int>) returns (delivered: seq<Package>, ghost calls: seq<Delivery>)
      requires Valid()
      modifies this, unpacker
      ensures Valid()
      ensures var f := FeedSpec(reg, old(unpacker.State()), data, timestamp, transport == Ble);
        unpacker.State() == f.codec && Fields() == Absorbed(old(Fields()), f.packages, timestamp)
        && delivered == StampAll(f.packages, timestamp)
      ensures |old(queue)| <= |queue| && queue[..|old(queue)|] == old(queue)
      ensures delivered == PackagesIn(queue[|old(queue)|..])
      ensures log == old(log) + calls
      ensures forall l :: OnlyPackageListener(l) ==> PackagesOf(Heard(calls, l)) == delivered
    {
      ghost var f0 := Fields();
      var start := |queue|;
      var extractRt := transport == Ble;
      var o, raw, chunk, received := Feed(data, timestamp, extractRt);
      AppendAssoc(old(log), raw, chunk);
      AppendAssoc(old(log), raw + chunk, received);
      calls := raw + chunk + received;
      ghost var f := FeedSpec(reg, old(unpacker.State()), data, timestamp, extractRt);
      AbsorbedQueue(f0, f.packages, timestamp);
      PackagesInEntries(StampAll(f.packages, timestamp));
      delivered := PackagesIn(queue[start..]);
      assert delivered == StampAll(f.packages, timestamp);
      forall l | OnlyPackageListener(l)
        ensures PackagesOf(Heard(calls, l)) == delivered
      {
        FeedHeard(raw, chunk, received, dataWithRtListeners, dataListeners, packageListeners,
                  data, timestamp, extractRt, f, l);
      }
    }

    /** The transport reports the link lost; nothing is queued but (maybe) a disconnect sentinel. */
    method ArriveLost() returns (delivered: seq<Package>, ghost calls: seq<Delivery>)
      requires Valid()
      modifies this
      ensures Valid()
      ensures transport == Usb && old(state) == Disconnected ==> Fields() == old(Fields())
      ensures transport == Ble || old(state) != Disconnected ==>
        Fields() == old(Fields()).(state := Disconnected, queue := old(queue) + [DisconnectSentinel])
      ensures |old(queue)| <= |queue| && queue[..|old(queue)|] == old(queue)
      ensures delivered == PackagesIn(queue[|old(queue)|..]) == []
      ensures log == old(log) + calls
      ensures forall l :: OnlyPackageListener(l) ==> Heard(calls, l) == []
    {
      var start := |queue|;
      calls := OnTransportLost();
      forall l | OnlyPackageListener(l)
        ensures Heard(calls, l) == []
      {
        if calls != [] {
          NotDelivered(calls, stateListeners, [StateChanged(Disconnected)], l);
        }
      }
      assert queue[start..] == [] || queue[start..] == [DisconnectSentinel];
      delivered := PackagesIn(queue[start..]);
    }

    /** The arrival after the first `n` of `arrivals`, handled on the link those left. */
    method ArriveNext(ghost k0: Link, arrivals: seq<Arrival>, n: nat) returns (delivered: seq<Package>, ghost calls: seq<Delivery>)
      requires Valid() && n < |arrivals| && LinkOf() == ArriveAll(reg, transport, k0, arrivals[..n])
      modifies this, unpacker
      ensures Valid()
      ensures LinkOf() == ArriveAll(reg, transport, k0, arrivals[..n + 1])
      ensures Listeners() == old(Listeners()) && sent == old(sent)
      ensures |old(queue)| <= |queue| && queue[..|old(queue)|] == old(queue)
      ensures delivered == PackagesIn(queue[|old(queue)|..])
      ensures log == old(log) + calls
      ensures forall l :: OnlyPackageListener(l) ==> PackagesOf(Heard(calls, l)) == delivered
    {
      delivered, calls := Arrive(arrivals[n]);
      ArriveAllNext(reg, transport, k0, arrivals, n);
    }

    /**
     * `await` on the status latch (or, with `deviceInfo`, the device-info latch): arrivals are handled
     * in order until the latch is set; `used` counts those handled. Running out of arrivals first means
     * the source would still be waiting.
     */
    method AwaitLatch(deviceInfo: bool, arrivals: seq<Arrival>) returns (used: nat)
      requires Valid()
      modifies this, unpacker
      ensures Valid()
      ensures used <= |arrivals|
      ensures Waited(reg, transport, old(LinkOf()), arrivals, used, LinkOf(), deviceInfo)
      ensures Listeners() == old(Listeners()) && sent == old(sent)
    {
      ghost var k0 := LinkOf();
      used := 0;
      while !(if deviceInfo then deviceInfoReceived else statusReceived) && used < |arrivals|
        invariant Valid()
        invariant used <= |arrivals|
        invariant LinkOf() == ArriveAll(reg, transport, k0, arrivals[..used])
        invariant UnlatchedBefore(reg, transport, k0, arrivals, used, deviceInfo)
        invariant Listeners() == old(Listeners()) && sent == old(sent)
        decreases |arrivals| - used
      {
        UnlatchedNext(reg, transport, k0, arrivals, used, deviceInfo);
        var _, _ := ArriveNext(k0, arrivals, used);
        used := used + 1;
      }
    }

    /**
     * `sendAndAwaitAck`: a fresh package listener is registered, the package sent, and arrivals are
     * handled until the listener has been given a package of the awaited class or a sensor error about
     * the sent package; then the listener is removed. The first such package is the result; running out
     * of arrivals stands for the timeout.
     */
    method SendAndAwaitAck(p: Package, ackName: string, arrivals: seq<Arrival>)
      returns (r: AckOutcome, used: nat, ghost l: Listener, ghost heard: seq<Package>)
      requires Valid()
      modifies this, unpacker
      ensures Valid() && fresh(l)
      ensures Listeners() == old(Listeners()) && sent == old(sent) + [p]
      ensures |old(log)| <= |log| && log[..|old(log)|] == old(log)
      ensures heard == PackagesOf(Heard(log[|old(log)|..], l))
      ensures |old(queue)| <= |queue| && queue[..|old(queue)|] == old(queue)
      ensures heard == PackagesIn(queue[|old(queue)|..])
      ensures r == match FirstMatch(ackName, p, heard) case Some(q) => Acked(q) case None => TimedOut
      ensures used <= |arrivals|
      ensures LinkOf() == ArriveAll(reg, transport, old(LinkOf()), arrivals[..used])
      ensures UnresolvedBefore(reg, transport, old(LinkOf()), arrivals, used, ackName, p)
      ensures r.TimedOut? ==> used == |arrivals|
    {
      var listener := new Listener();
      l := listener;
      AddPackageListener(listener);
      Send(p);
      ghost var calls;
      var future;
      future, used, heard, calls := AwaitMatch(p, ackName, listener, arrivals);
      var _ := RemovePackageListener(listener);
      assert old(packageListeners) + {l} - {l} == old(packageListeners);
      assert log[|old(log)|..] == calls;
      r := if future.Some? then Acked(future.value) else TimedOut;
    }

    /** The wait of `sendAndAwaitAck`, with its listener `l` registered: arrivals until `l` has a match. */
    method AwaitMatch(p: Package, ackName: string, l: Listener, arrivals: seq<Arrival>)
      returns (future: Option<Package>, used: nat, ghost heard: seq<Package>, ghost calls: seq<Delivery>)
      requires Valid() && OnlyPackageListener(l)
      modifies this, unpacker
      ensures Valid()
      ensures Listeners() == old(Listeners()) && sent == old(sent)
      ensures log == old(log) + calls && heard == PackagesOf(Heard(calls, l))
      ensures |old(queue)| <= |queue| && queue[..|old(queue)|] == old(queue)
      ensures heard == PackagesIn(queue[|old(queue)|..])
      ensures future == FirstMatch(ackName, p, heard)
      ensures used <= |arrivals|
      ensures LinkOf() == ArriveAll(reg, transport, old(LinkOf()), arrivals[..used])
      ensures UnresolvedBefore(reg, transport, old(LinkOf()), arrivals, used, ackName, p)
      ensures future.None? ==> used == |arrivals|
    {
      ghost var k0 := LinkOf();
      ghost var q0 := queue;
      ghost var log0 := log;
      ghost var ls0 := Listeners();
      ghost var sent0 := sent;
      calls := [];
      heard := [];
      future := None;
      used := 0;
      assert log == log0 + [];
      while future.None? && used < |arrivals|
        invariant Valid() && Listeners() == ls0 && sent == sent0
        invariant log == log0 + calls && heard == PackagesOf(Heard(calls, l))
        invariant |q0| <= |queue| && queue[..|q0|] == q0 && heard == PackagesIn(queue[|q0|..])
        invariant future == FirstMatch(ackName, p, heard)
        invariant used <= |arrivals|
        invariant LinkOf() == ArriveAll(reg, transport, k0, arrivals[..used])
        invariant UnresolvedBefore(reg, transport, k0, arrivals, used, ackName, p)
        decreases |arrivals| - used
      {
        ghost var q1 := queue;
        UnresolvedNext(reg, transport, k0, arrivals, used, ackName, p);
        var got, more := ArriveNext(k0, arrivals, used);
        AwaitAdvance(ackName, p, l, log0, calls, more, heard, got, q0, q1, queue);
        if future.None? {
          future := FirstMatch(ackName, p, got);
        }
        calls := calls + more;
        heard := heard + got;
        used := used + 1;
      }
    }

    /**
     * The abort-streaming part of `init`: the unpacker is told to skip everything up to the stop
     * acknowledgement, the stop command is sent, the packages up to that acknowledgement are taken with
     * the data packages dropped, the kept ones are put back ahead of whatever is still queued, and
     * device info is requested again unless it has arrived.
     */
    method AbortStreaming(arrivals: seq<Arrival>)
      returns (completed: bool, used: nat, ghost seen: seq<Package>, ghost taken: seq<Entry>, ghost tail: seq<Entry>)
      requires Valid()
      modifies this, unpacker
      ensures Valid()
      ensures Listeners() == old(Listeners())
      ensures used <= |arrivals|
      ensures completed ==>
        && AbortedVia(reg, transport, old(LinkOf()), arrivals, used, seen, taken, tail, LinkOf())
        && sent == old(sent) + [CmdStopStreamingAndClearBuffer(reg)]
                   + (if deviceInfoReceived then [] else [CmdGetDeviceInfo(reg)])
      ensures !completed ==>
        && used == |arrivals|
        && LinkOf() == ArriveAll(reg, transport, AwaitingStopAck(old(LinkOf())), arrivals).(queue := [])
        && DrainWaitedBefore(reg, transport, AwaitingStopAck(old(LinkOf())), arrivals, used)
        && sent == old(sent) + [CmdStopStreamingAndClearBuffer(reg)]
    {
      unpacker.waitForAckStopStreamingAndClearBuffer := true;
      Send(CmdStopStreamingAndClearBuffer(reg));
      ghost var k1 := LinkOf();
      assert k1 == AwaitingStopAck(old(LinkOf()));
      var keep;
      completed, used, keep, seen, taken := TakeUntilAck(arrivals);
      tail := queue;
      if !completed {
        assert arrivals[..used] == arrivals;
        return;
      }
      var _ := Requeue(keep);
      if !deviceInfoReceived {
        Send(CmdGetDeviceInfo(reg));
      } else {
        assert sent == sent + [];
      }
    }

    /**
     * The `async for` of the abort: packages are taken (handling arrivals while none is queued) until
     * the stop acknowledgement or the end of the iteration; data packages are dropped, the rest kept.
     * `taken` is every entry taken and `seen` its packages. Running out of arrivals means the source
     * would still be waiting.
     */
    method TakeUntilAck(arrivals: seq<Arrival>)
      returns (completed: bool, used: nat, keep: seq<Entry>, ghost seen: seq<Package>, ghost taken: seq<Entry>)
      requires Valid()
      modifies this, unpacker
      ensures Valid() && Listeners() == old(Listeners()) && sent == old(sent)
      ensures used <= |arrivals|
      ensures var w := ArriveAll(reg, transport, old(LinkOf()), arrivals[..used]);
        && LinkOf() == w.(queue := queue)
        && DrainTook(reg, transport, old(LinkOf()), arrivals, used, w, queue, taken, seen, keep)
      ensures completed ==> DrainEnded(reg, seen, taken, queue)
      ensures !completed ==> used == |arrivals| && queue == [] && NoKeptAckBefore(reg, seen, |seen|)
    {
      ghost var k0 := LinkOf();
      ghost var ls0 := Listeners();
      ghost var sent0 := sent;
      ghost var w := k0;
      keep := [];
      seen := [];
      taken := [];
      used := 0;
      DrainingStart(reg, transport, k0, arrivals);
      while true
        invariant Valid() && Listeners() == ls0 && sent == sent0
        invariant LinkOf() == w.(queue := queue)
        invariant Draining(reg, transport, k0, arrivals, used, w, queue, taken, seen, keep)
        decreases |arrivals| - used, |queue|
      {
        var stop;
        stop, completed, used, w, keep, taken, seen := TakeOnce(k0, arrivals, used, w, keep, taken, seen);
        if stop {
          return;
        }
      }
    }

    /**
     * One turn of the abort's `async for`: one poll, and when nothing is queued the next arrival.
     * `stop` is set when the loop leaves: on the acknowledgement or the end (`completed`), or with no
     * arrival left to handle.
     */
    method TakeOnce(ghost k0: Link, arrivals: seq<Arrival>, used: nat, ghost w: Link, keep: seq<Entry>,
                    ghost taken: seq<Entry>, ghost seen: seq<Package>)
      returns (stop: bool, completed: bool, used1: nat, ghost w1: Link, keep1: seq<Entry>,
               ghost taken1: seq<Entry>, ghost seen1: seq<Package>)
      requires Valid() && LinkOf() == w.(queue := queue)
      requires Draining(reg, transport, k0, arrivals, used, w, queue, taken, seen, keep)
      modifies this, unpacker
      ensures Valid() && Listeners() == old(Listeners()) && sent == old(sent)
      ensures LinkOf() == w1.(queue := queue)
      ensures TookOnce(reg, transport, k0, arrivals, used, w, old(queue), taken, seen, keep,
                       stop, completed, used1, w1, queue, taken1, seen1, keep1)
    {
      ghost var q := queue;
      var polled := APoll();
      if polled.Blocked? {
        stop, used1, w1, taken1 := TakeArrival(k0, arrivals, used, w, q, keep, taken, seen);
        return stop, false, used1, w1, keep, taken1, seen;
      }
      stop, keep1, taken1, seen1 := TookPolled(reg, transport, k0, arrivals, used, w, q, taken, seen, keep, polled, queue);
      return stop, stop, used, w, keep1, taken1, seen1;
    }

    /**
     * The abort's `async for` found nothing queued: the next arrival is handled, or with none left the
     * loop stops still waiting.
     */
    method TakeArrival(ghost k0: Link, arrivals: seq<Arrival>, used: nat, ghost w: Link, ghost q: seq<Entry>,
                       keep: seq<Entry>, ghost taken: seq<Entry>, ghost seen: seq<Package>)
      returns (stop: bool, used1: nat, ghost w1: Link, ghost taken1: seq<Entry>)
      requires Valid() && LinkOf() == w.(queue := queue) && APollSpec(q) == (Blocked, queue)
      requires Draining(reg, transport, k0, arrivals, used, w, q, taken, seen, keep)
      modifies this, unpacker
      ensures Valid() && Listeners() == old(Listeners()) && sent == old(sent)
      ensures LinkOf() == w1.(queue := queue)
      ensures TookOnce(reg, transport, k0, arrivals, used, w, q, taken, seen, keep,
                       stop, false, used1, w1, queue, taken1, seen, keep)
    {
      DrainingBlocked(reg, transport, k0, arrivals, used, w, q, taken, seen, keep, queue);
      taken1 := taken + q[..|q| - |queue|];
      if used == |arrivals| {
        return true, used, w, taken1;
      }
      ArriveBehind(k0, arrivals, used, w, taken1);
      w1 := ArriveAll(reg, transport, k0, arrivals[..used + 1]);
      DrainingArrived(reg, transport, k0, arrivals, used, w, taken1, seen, keep, w1, queue);
      return false, used + 1, w1, taken1;
    }

    /**
     * The arrival after the first `n` of `arrivals`, handled while the entries `taken` of what those
     * queued have been taken out: it acts on the rest of the link as usual and queues the same entries.
     */
    method ArriveBehind(ghost k0: Link, arrivals: seq<Arrival>, n: nat, ghost w: Link, ghost taken: seq<Entry>)
      requires Valid() && n < |arrivals| && w == ArriveAll(reg, transport, k0, arrivals[..n])
      requires LinkOf() == w.(queue := queue) && w.queue == taken + queue
      modifies this, unpacker
      ensures Valid() && Listeners() == old(Listeners()) && sent == old(sent)
      ensures var w1 := ArriveAll(reg, transport, k0, arrivals[..n + 1]);
        LinkOf() == w1.(queue := queue) && w1.queue == taken + queue
    {
      ghost var before := LinkOf();
      var _, _ := Arrive(arrivals[n]);
      ArrivedBehind(reg, transport, k0, arrivals, n, w, taken, before, LinkOf());
    }

    /** Everything still queued is taken out after `keep`, and the lot is queued again in that order. */
    method Requeue(keep: seq<Entry>) returns (ghost tail: seq<Entry>)
      modifies this
      ensures tail == old(queue)
      ensures Fields() == old(Fields()).(queue := keep + old(queue)) && log == old(log)
    {
      tail := queue;
      var all := keep;
      while queue != []
        invariant all + queue == keep + tail
        invariant Fields() == old(Fields()).(queue := queue) && log == old(log)
        decreases |queue|
      {
        AppendAssoc(all, [queue[0]], queue[1..]);
        assert [queue[0]] + queue[1..] == queue;
        all := all + [queue[0]];
        queue := queue[1..];
      }
      assert all + [] == all;
      var i := 0;
      while i < |all|
        invariant 0 <= i <= |all| && queue == all[..i]
        invariant Fields() == old(Fields()).(queue := queue) && log == old(log)
      {
        queue := queue + [all[i]];
        i := i + 1;
        assert all[..i] == all[..i - 1] + [all[i - 1]];
      }
      assert all[..|all|] == all;
    }

    /**
     * `init`, on a connected session: device info is requested and the status latch awaited. A
     * recording device is stopped or reported, a streaming one has its stream aborted or is reported;
     * then the device-info latch is awaited and, with `setTime`, the clock set to `now`. `observed` is
     * the status package the decision was taken on; `resent` says whether the abort requested device
     * info again. `Pending` means the arrivals ran out while the source would still be waiting. The
     * trace `t` records where each phase ended: the status wait after `t.statusUsed` arrivals with link
     * `t.afterStatus`, the stop phase after `t.abortUsed` arrivals with link `t.afterAbort`.
     */
    method Init(setTime: bool, abortRecording: bool, abortStreaming: bool, now: int, arrivals: seq<Arrival>)
      returns (r: InitOutcome, used: nat, ghost observed: Option<Package>, ghost resent: bool, ghost t: InitTrace)
      requires Valid() && state == Connected
      modifies this, unpacker
      ensures Valid() && Listeners() == old(Listeners())
      ensures used <= |arrivals| && (r.Pending? ==> used == |arrivals|)
      ensures t.statusUsed <= t.abortUsed <= used
      ensures Waited(reg, transport, old(LinkOf()), arrivals, t.statusUsed, t.afterStatus, false)
      ensures observed == (if t.afterStatus.cache.statusReceived then t.afterStatus.cache.status else None)
      ensures observed.None? ==>
        r.Pending? && sent == old(sent) + [CmdGetDeviceInfo(reg)] && LinkOf() == t.afterStatus
      ensures observed.Some? ==> observed.value.body.Status?
      ensures observed.Some? ==>
        StopPhase(reg, transport, t.afterStatus, arrivals[t.statusUsed..], t.abortUsed - t.statusUsed,
                  t.afterAbort, t.aborted, t.drained)
      ensures t.aborted <==> observed.Some? && observed.value.body.sensorState == Streaming && abortStreaming
      ensures resent <==> t.aborted && t.drained && !t.afterAbort.cache.deviceInfoReceived
      ensures r.DeviceIsRecording? <==>
        observed.Some? && observed.value.body.sensorState == Recording && !abortRecording
      ensures r.DeviceIsStreaming? <==>
        observed.Some? && observed.value.body.sensorState == Streaming && !abortStreaming
      ensures r.DeviceIsRecording? || r.DeviceIsStreaming? ==>
        sent == old(sent) + [CmdGetDeviceInfo(reg)] && LinkOf() == t.afterStatus
      ensures !t.drained ==> r.Pending? && LinkOf() == t.afterAbort
      ensures observed.Some? && t.drained && (r.Ready? || r.Pending?) ==>
        Waited(reg, transport, t.afterAbort, arrivals[t.abortUsed..], used - t.abortUsed, LinkOf(), true)
      ensures r.Ready? ==> statusReceived && deviceInfoReceived && observed.Some? && t.drained
      ensures r.Ready? ==>
        sent == old(sent) + [CmdGetDeviceInfo(reg)]
                + AbortCommands(reg, observed.value.body.sensorState, resent)
                + (if setTime then [CmdSetAbsoluteTime(reg, now)] else [])
    {
      Send(CmdGetDeviceInfo(reg));
      ghost var sent1 := sent;
      var k1 := AwaitLatch(false, arrivals);
      used := k1;
      t := InitTrace(k1, LinkOf(), false, true, k1, LinkOf());
      resent := false;
      if !statusReceived {
        return Pending, used, None, resent, t;
      }
      observed := status;
      ghost var afterStatus := LinkOf();
      ghost var aborted, drained, abortEnd, afterAbort;
      r, used, aborted, drained, abortEnd, afterAbort, resent :=
        Proceed(status.value.body.sensorState, setTime, abortRecording, abortStreaming, now, arrivals, used);
      t := InitTrace(k1, afterStatus, aborted, drained, abortEnd, afterAbort);
      return r, used, observed, resent, t;
    }

    /**
     * `init` once the status is known, on its `sensorState`, with the arrivals from `start` on: the stop
     * phase (`StopActivity`), which ends where `abortEnd` arrivals have been handled, with link
     * `afterAbort`; then, unless that reported the device, the device-info wait and the clock
     * (`FinishInit`).
     */
    method Proceed(sensorState: SensorState, setTime: bool, abortRecording: bool, abortStreaming: bool, now: int,
                   arrivals: seq<Arrival>, start: nat)
      returns (r: InitOutcome, used: nat, ghost aborted: bool, ghost drained: bool, ghost abortEnd: nat,
               ghost afterAbort: Link, ghost resent: bool)
      requires Valid() && start <= |arrivals|
      modifies this, unpacker
      ensures Valid() && Listeners() == old(Listeners())
      ensures start <= abortEnd <= used <= |arrivals| && (r.Pending? ==> used == |arrivals|)
      ensures StopPhase(reg, transport, old(LinkOf()), arrivals[start..], abortEnd - start, afterAbort, aborted, drained)
      ensures aborted <==> sensorState == Streaming && abortStreaming
      ensures resent <==> aborted && drained && !afterAbort.cache.deviceInfoReceived
      ensures r.DeviceIsRecording? <==> sensorState == Recording && !abortRecording
      ensures r.DeviceIsStreaming? <==> sensorState == Streaming && !abortStreaming
      ensures r.DeviceIsRecording? || r.DeviceIsStreaming? ==> sent == old(sent) && LinkOf() == old(LinkOf())
      ensures !drained ==> r.Pending? && LinkOf() == afterAbort
      ensures drained && (r.Ready? || r.Pending?) ==>
        Waited(reg, transport, afterAbort, arrivals[abortEnd..], used - abortEnd, LinkOf(), true)
      ensures r.Ready? ==> (old(statusReceived) ==> statusReceived) && deviceInfoReceived && drained
      ensures r.Ready? ==>
        sent == old(sent) + AbortCommands(reg, sensorState, resent)
                + (if setTime then [CmdSetAbsoluteTime(reg, now)] else [])
    {
      var outcome, more;
      outcome, more, aborted, drained, resent := StopActivity(sensorState, abortRecording, abortStreaming, arrivals[start..]);
      used := start + more;
      abortEnd, afterAbort := used, LinkOf();
      if !outcome.Ready? {
        return outcome, used, aborted, drained, abortEnd, afterAbort, resent;
      }
      r, more := FinishInit(setTime, now, arrivals[used..]);
      used := used + more;
    }

    /**
     * The end of `init`: the device-info latch is awaited and then, with `setTime`, the clock is set to
     * `now`. `Pending` means the arrivals ran out first.
     */
    method FinishInit(setTime: bool, now: int, arrivals: seq<Arrival>) returns (r: InitOutcome, used: nat)
      requires Valid()
      modifies this, unpacker
      ensures Valid() && Listeners() == old(Listeners())
      ensures Waited(reg, transport, old(LinkOf()), arrivals, used, LinkOf(), true)
      ensures old(statusReceived) ==> statusReceived
      ensures r == (if deviceInfoReceived then Ready else Pending)
      ensures sent == old(sent) + (if r.Ready? && setTime then [CmdSetAbsoluteTime(reg, now)] else [])
    {
      used := AwaitLatch(true, arrivals);
      if !deviceInfoReceived {
        assert sent == old(sent) + [];
        return Pending, used;
      }
      if setTime {
        Send(CmdSetAbsoluteTime(reg, now));
      } else {
        assert sent == old(sent) + [];
      }
      return Ready, used;
    }

    /**
     * The middle of `init`, on the cached status's `sensorState`: a recording device is stopped, or
     * reported unless `abortRecording`; a streaming one has its stream aborted, or is reported unless
     * `abortStreaming`. `Ready` means `init` goes on to the device-info wait, `Pending` that the abort
     * ran out of arrivals; `resent` that the abort requested device info again.
     */
    method StopActivity(sensorState: SensorState, abortRecording: bool, abortStreaming: bool, arrivals: seq<Arrival>)
      returns (outcome: InitOutcome, used: nat, ghost aborted: bool, ghost drained: bool, ghost resent: bool)
      requires Valid()
      modifies this, unpacker
      ensures Valid() && Listeners() == old(Listeners())
      ensures aborted <==> sensorState == Streaming && abortStreaming
      ensures StopPhase(reg, transport, old(LinkOf()), arrivals, used, LinkOf(), aborted, drained)
      ensures resent <==> aborted && drained && !deviceInfoReceived
      ensures outcome.DeviceIsRecording? <==> sensorState == Recording && !abortRecording
      ensures outcome.DeviceIsStreaming? <==> sensorState == Streaming && !abortStreaming
      ensures outcome.Pending? <==> !drained
      ensures outcome.Ready? ==> sent == old(sent) + AbortCommands(reg, sensorState, resent)
      ensures outcome.DeviceIsRecording? || outcome.DeviceIsStreaming? ==> sent == old(sent)
    {
      aborted, drained, resent, used := false, true, false, 0;
      if sensorState == Recording {
        if !abortRecording {
          return DeviceIsRecording, used, aborted, drained, resent;
        }
        Send(CmdStopRecording(reg));
      } else if sensorState == Streaming {
        if !abortStreaming {
          return DeviceIsStreaming, used, aborted, drained, resent;
        }
        ghost var sent0 := sent;
        var completed;
        ghost var seen, taken, tail;
        completed, used, seen, taken, tail := AbortStreaming(arrivals);
        aborted, drained := true, completed;
        if !completed {
          return Pending, used, aborted, drained, resent;
        }
        assert AbortedVia(reg, transport, old(LinkOf()), arrivals, used, seen, taken, tail, LinkOf());
        resent := !deviceInfoReceived;
        AppendAssoc(sent0, [CmdStopStreamingAndClearBuffer(reg)], if resent then [CmdGetDeviceInfo(reg)] else []);
      } else {
        assert sent == old(sent) + [];
      }
      return Ready, used, aborted, drained, resent;
    }
  }

  lemma StampAllSnoc(ps: seq<Package>, p: Package, timestamp: Option<int>)
    ensures StampAll(ps + [p], timestamp) == StampAll(ps, timestamp) + [Stamp(p, timestamp)]
  {
    assert (ps + [p])[..|ps|] == ps;
  }

  lemma ObserveAllSnoc(c: Cache, ps: seq<Package>, p: Package)
    ensures ObserveAll(c, ps + [p]) == Observe(ObserveAll(c, ps), p)
  {
    assert (ps + [p])[..|ps|] == ps;
  }

  lemma ReceivedAllSnoc(ps: seq<Package>, p: Package, timestamp: Option<int>)
    ensures ReceivedAll(ps + [p], timestamp) == ReceivedAll(ps, timestamp) + [Received(p, timestamp)]
  {
    assert (ps + [p])[..|ps|] == ps;
  }

  lemma AbsorbedNothing(f: DeviceFields, timestamp: Option<int>)
    ensures Absorbed(f, [], timestamp) == f
  {
    assert f.queue + [] == f.queue;
  }

  /** Absorbing one more package is absorbing it after the others. */
  lemma AbsorbedSnoc(f: DeviceFields, ps: seq<Package>, p: Package, timestamp: Option<int>)
    ensures Absorbed(f, ps + [p], timestamp) == Absorbed(Absorbed(f, ps, timestamp), [p], timestamp)
  {
    QueueSnoc(f.queue, ps, p, timestamp);
    CacheSnoc(f.cache, ps, p);
  }

  lemma QueueSnoc(q: seq<Entry>, ps: seq<Package>, p: Package, timestamp: Option<int>)
    ensures q + Entries(StampAll(ps + [p], timestamp))
         == (q + Entries(StampAll(ps, timestamp))) + Entries(StampAll([p], timestamp))
  {
    var st := StampAll(ps, timestamp);
    var x := Stamp(p, timestamp);
    StampAllSnoc(ps, p, timestamp);
    EntriesSnoc(st, x);
    assert Entries(StampAll([p], timestamp)) == [Pkg(x)];
    SnocAssoc(q, Entries(st), Pkg(x));
  }

  lemma CacheSnoc(c: Cache, ps: seq<Package>, p: Package)
    ensures ObserveAll(c, ps + [p]) == ObserveAll(ObserveAll(c, ps), [p])
  {
    ObserveAllSnoc(c, ps, p);
    assert ObserveAll(ObserveAll(c, ps), [p]) == Observe(ObserveAll(c, ps), p);
  }

  /** Absorbing one package: the cache observes it, and it is queued with its receive time filled in. */
  lemma AbsorbedOne(f: DeviceFields, p: Package, timestamp: Option<int>)
    ensures Absorbed(f, [p], timestamp) == f.(cache := Observe(f.cache, p), queue := f.queue + [Pkg(Stamp(p, timestamp))])
  {
    assert ObserveAll(f.cache, [p]) == Observe(f.cache, p);
    assert Entries(StampAll([p], timestamp)) == [Pkg(Stamp(p, timestamp))];
  }

  /** One yielded package extends the fields and the package listeners' log consistently. */
  lemma DrainStep(ls: set<Listener>, f: DeviceFields, done: seq<Package>, p: Package, timestamp: Option<int>,
                  log0: seq<Delivery>, received: seq<Delivery>, calls: seq<Delivery>)
    requires Delivers(received, ls, ReceivedAll(StampAll(done, timestamp), timestamp))
    requires Delivers(calls, ls, [Received(Stamp(p, timestamp), timestamp)])
    ensures (log0 + received) + calls == log0 + (received + calls)
    ensures Delivers(received + calls, ls, ReceivedAll(StampAll(done + [p], timestamp), timestamp))
    ensures Absorbed(f, done + [p], timestamp) == Absorbed(Absorbed(f, done, timestamp), [p], timestamp)
  {
    var st := StampAll(done, timestamp);
    var q := Stamp(p, timestamp);
    StampAllSnoc(done, p, timestamp);
    ReceivedAllSnoc(st, q, timestamp);
    DeliversAppend(received, calls, ls, ReceivedAll(st, timestamp), [Received(q, timestamp)]);
    AbsorbedSnoc(f, done, p, timestamp);
    AppendAssoc(log0, received, calls);
  }

  lemma AbsorbedQueue(f: DeviceFields, ps: seq<Package>, timestamp: Option<int>)
    ensures var q := Absorbed(f, ps, timestamp).queue;
      |f.queue| <= |q| && q[..|f.queue|] == f.queue && q[|f.queue|..] == Entries(StampAll(ps, timestamp))
  {
    var q := Absorbed(f, ps, timestamp).queue;
    assert q == f.queue + Entries(StampAll(ps, timestamp));
  }

  /** The first resolving package of two stretches: the first stretch's, or else the second's. */
  lemma {:induction false} FirstMatchAppend(ackName: string, sent: Package, a: seq<Package>, b: seq<Package>)
    ensures FirstMatch(ackName, sent, a + b)
         == if FirstMatch(ackName, sent, a).Some? then FirstMatch(ackName, sent, a) else FirstMatch(ackName, sent, b)
    decreases |a|
  {
    if a == [] {
      assert a + b == b;
    } else {
      assert (a + b)[0] == a[0] && (a + b)[1..] == a[1..] + b;
      FirstMatchAppend(ackName, sent, a[1..], b);
    }
  }

  /** One arrival during `sendAndAwaitAck`'s wait extends the log, what the listener heard and the queue alike. */
  lemma AwaitAdvance(ackName: string, p: Package, l: Listener, log0: seq<Delivery>, calls: seq<Delivery>,
                     more: seq<Delivery>, heard: seq<Package>, got: seq<Package>,
                     q0: seq<Entry>, q1: seq<Entry>, q2: seq<Entry>)
    requires heard == PackagesOf(Heard(calls, l)) && got == PackagesOf(Heard(more, l))
    requires |q0| <= |q1| && q1[..|q0|] == q0 && heard == PackagesIn(q1[|q0|..])
    requires |q1| <= |q2| && q2[..|q1|] == q1 && got == PackagesIn(q2[|q1|..])
    ensures (log0 + calls) + more == log0 + (calls + more)
    ensures heard + got == PackagesOf(Heard(calls + more, l))
    ensures |q0| <= |q2| && q2[..|q0|] == q0 && heard + got == PackagesIn(q2[|q0|..])
    ensures FirstMatch(ackName, p, heard + got)
         == if FirstMatch(ackName, p, heard).Some? then FirstMatch(ackName, p, heard) else FirstMatch(ackName, p, got)
  {
    AppendAssoc(log0, calls, more);
    HeardAppend(calls, more, l);
    PackagesOfAppend(Heard(calls, l), Heard(more, l));
    PackagesInGrow(q0, q1, q2);
    FirstMatchAppend(ackName, p, heard, got);
  }

  /** Where each phase of `init` ended (see `Device.Init`). */
  datatype InitTrace = InitTrace(statusUsed: nat, afterStatus: Link, aborted: bool, drained: bool,
                                 abortUsed: nat, afterAbort: Link)

  /**
   * The stop phase of `init` from link `k` over `arrivals`, after `n` of them, ending at `r`: without an
   * abort nothing is handled; a finished (`drained`) abort went as `AbortedVia` says; an unfinished one
   * handled every arrival while still waiting for the acknowledgement, with every taken entry gone.
   */
  ghost predicate StopPhase(reg: Registry, transport: Transport, k: Link, arrivals: seq<Arrival>, n: nat, r: Link,
                            aborted: bool, drained: bool)
  {
    && n <= |arrivals|
    && (!aborted ==> n == 0 && r == k && drained)
    && (aborted && drained ==>
          exists seen, taken, tail :: AbortedVia(reg, transport, k, arrivals, n, seen, taken, tail, r))
    && (aborted && !drained ==>
          && n == |arrivals|
          && r == ArriveAll(reg, transport, AwaitingStopAck(k), arrivals).(queue := [])
          && DrainWaitedBefore(reg, transport, AwaitingStopAck(k), arrivals, n))
  }

  /** What `init` sends to stop a recording or streaming device (`resent`: device info is asked for again). */
  function AbortCommands(reg: Registry, sensorState: SensorState, resent: bool): (r: seq<Package>)
    ensures r == [CmdStopRecording(reg)] <==> sensorState == Recording
    ensures r != [] && r[0] == CmdStopStreamingAndClearBuffer(reg) <==> sensorState == Streaming
    ensures |r| == 2 <==> sensorState == Streaming && resent
    ensures |r| == 2 ==> r[1] == CmdGetDeviceInfo(reg)
    ensures r == [] <==> sensorState != Recording && sensorState != Streaming
  {
    assert |CmdStopRecording(reg).name| != |CmdStopStreamingAndClearBuffer(reg).name|;
    match sensorState
    case Recording => [CmdStopRecording(reg)]
    case Streaming => [CmdStopStreamingAndClearBuffer(reg)] + if resent then [CmdGetDeviceInfo(reg)] else []
    case _ => []
  }

  /** One more arrival extends a run of arrivals. */
  lemma ArriveAllNext(reg: Registry, transport: Transport, k: Link, arrivals: seq<Arrival>, n: nat)
    requires n < |arrivals|
    ensures ArriveAll(reg, transport, k, arrivals[..n + 1])
         == ArriveSpec(reg, transport, ArriveAll(reg, transport, k, arrivals[..n]), arrivals[n])
  {
    assert arrivals[..n + 1][..n] == arrivals[..n];
  }

  /** Handling two runs of arrivals is handling the second on the link the first left. */
  lemma {:induction false} ArriveAllAppend(reg: Registry, transport: Transport, k: Link, a: seq<Arrival>, b: seq<Arrival>)
    ensures ArriveAll(reg, transport, k, a + b) == ArriveAll(reg, transport, ArriveAll(reg, transport, k, a), b)
    decreases |b|
  {
    if b == [] {
      assert a + b == a;
    } else {
      assert (a + b)[..|a + b| - 1] == a + b[..|b| - 1];
      ArriveAllAppend(reg, transport, k, a, b[..|b| - 1]);
    }
  }

  /**
   * Arrivals only append to the queue: on a link whose queue is `q` instead, one arrival has the same
   * effect on everything else and queues the same entries after `q`.
   */
  lemma ArriveSpecRequeue(reg: Registry, transport: Transport, k: Link, q: seq<Entry>, a: Arrival)
    ensures var w := ArriveSpec(reg, transport, k, a);
      ArriveSpec(reg, transport, k.(queue := q), a) == w.(queue := q + w.queue[|k.queue|..])
  {
    var w := ArriveSpec(reg, transport, k, a);
    assert w.queue == k.queue + w.queue[|k.queue|..];
  }

  /** A stop acknowledgement the abort keeps, which ends its drain: one that is not a data package. */
  predicate KeptAck(reg: Registry, p: Package)
  {
    !IsDataPackage(p.name) && IsAckStop(reg, p)
  }

  /** No package among the first `n` of `seen` is a kept stop acknowledgement. */
  ghost predicate NoKeptAckBefore(reg: Registry, seen: seq<Package>, n: int)
  {
    forall i :: 0 <= i < n && i < |seen| ==> !KeptAck(reg, seen[i])
  }

  /**
   * The abort's drain cannot finish on the queue `q` without further arrivals: `q` holds no kept stop
   * acknowledgement and does not end with a disconnect sentinel.
   */
  ghost predicate DrainWaits(reg: Registry, q: seq<Entry>)
  {
    NoKeptAckBefore(reg, PackagesIn(q), |PackagesIn(q)|) && (q == [] || q[|q| - 1] != DisconnectSentinel)
  }

  /** After each run of fewer than `n` of the arrivals, the drain could not finish. */
  ghost predicate DrainWaitedBefore(reg: Registry, transport: Transport, k: Link, arrivals: seq<Arrival>, n: nat)
    requires n <= |arrivals|
  {
    forall j :: 0 <= j < n ==> DrainWaits(reg, ArriveAll(reg, transport, k, arrivals[..j]).queue)
  }

  lemma DrainWaitedNext(reg: Registry, transport: Transport, k: Link, arrivals: seq<Arrival>, n: nat)
    requires n < |arrivals| && DrainWaitedBefore(reg, transport, k, arrivals, n)
    requires DrainWaits(reg, ArriveAll(reg, transport, k, arrivals[..n]).queue)
    ensures DrainWaitedBefore(reg, transport, k, arrivals, n + 1)
  {
  }

  /**
   * How the drain ended, having taken the entries `taken` (whose packages are `seen`) and left `rest`:
   * on the first kept stop acknowledgement, the last entry taken, so that whatever follows it stays
   * queued; or at the end of the iteration, a final disconnect sentinel.
   */
  ghost predicate DrainEnded(reg: Registry, seen: seq<Package>, taken: seq<Entry>, rest: seq<Entry>)
  {
    || (&& seen != [] && KeptAck(reg, seen[|seen| - 1]) && NoKeptAckBefore(reg, seen, |seen| - 1)
        && taken != [] && taken[|taken| - 1] == Pkg(seen[|seen| - 1]))
    || (rest == [] && taken != [] && taken[|taken| - 1] == DisconnectSentinel && NoKeptAckBefore(reg, seen, |seen|))
  }

  /** The link once the unpacker has been told to skip everything up to the stop acknowledgement. */
  function AwaitingStopAck(k: Link): (r: Link)
    ensures r.codec.waitAck && r.queue == k.queue && r.cache == k.cache
  {
    k.(codec := k.codec.(waitAck := true))
  }

  /**
   * The drain's bookkeeping after the first `used` arrivals, which made the link `w`: of `w`'s queue the
   * entries `taken`, whose packages are `seen`, have been taken and `rest` is left; `keep` holds the
   * non-data packages of `seen`; and the drain could not have finished after fewer arrivals.
   */
  ghost predicate DrainTook(reg: Registry, transport: Transport, k0: Link, arrivals: seq<Arrival>, used: nat, w: Link,
                            rest: seq<Entry>, taken: seq<Entry>, seen: seq<Package>, keep: seq<Entry>)
  {
    && used <= |arrivals| && w == ArriveAll(reg, transport, k0, arrivals[..used])
    && w.queue == taken + rest && PackagesIn(taken) == seen
    && keep == Entries(NonData(seen))
    && DrainWaitedBefore(reg, transport, k0, arrivals, used)
  }

  /** The drain is still running: no kept acknowledgement taken, and an emptied queue did not end the iteration. */
  ghost predicate Draining(reg: Registry, transport: Transport, k0: Link, arrivals: seq<Arrival>, used: nat, w: Link,
                           rest: seq<Entry>, taken: seq<Entry>, seen: seq<Package>, keep: seq<Entry>)
  {
    && DrainTook(reg, transport, k0, arrivals, used, w, rest, taken, seen, keep)
    && NoKeptAckBefore(reg, seen, |seen|)
    && (rest == [] ==> taken == [] || taken[|taken| - 1] != DisconnectSentinel)
  }

  /**
   * The abort-streaming part of `init`, started on link `k` and completed after the first `used`
   * arrivals: the unpacker waits for the stop acknowledgement, the drain took the entries `taken` (whose
   * packages are `seen`) and ended as `DrainEnded` says, leaving `tail`, after no fewer arrivals than it
   * needed; the link ends with the non-data packages of `seen` queued ahead of `tail`.
   */
  ghost predicate AbortedVia(reg: Registry, transport: Transport, k: Link, arrivals: seq<Arrival>, used: nat,
                             seen: seq<Package>, taken: seq<Entry>, tail: seq<Entry>, r: Link)
  {
    var w := ArriveAll(reg, transport, AwaitingStopAck(k), arrivals[..Min(used, |arrivals|)]);
    && DrainTook(reg, transport, AwaitingStopAck(k), arrivals, used, w, tail, taken, seen, Entries(NonData(seen)))
    && DrainEnded(reg, seen, taken, tail)
    && r == w.(queue := Entries(NonData(seen)) + tail)
  }

  /** The drain starts with nothing taken. */
  lemma DrainingStart(reg: Registry, transport: Transport, k0: Link, arrivals: seq<Arrival>)
    ensures Draining(reg, transport, k0, arrivals, 0, k0, k0.queue, [], [], [])
  {
    assert arrivals[..0] == [];
    assert [] + k0.queue == k0.queue;
  }

  /** `apoll` returned a package `p`: it is taken, and kept unless it is a data package; a kept acknowledgement ends the drain. */
  lemma DrainingGot(reg: Registry, transport: Transport, k0: Link, arrivals: seq<Arrival>, used: nat, w: Link,
                    q: seq<Entry>, taken: seq<Entry>, seen: seq<Package>, keep: seq<Entry>, p: Package, rest: seq<Entry>)
    requires Draining(reg, transport, k0, arrivals, used, w, q, taken, seen, keep)
    requires APollSpec(q) == (Got(p), rest)
    ensures |rest| <= |q|
    ensures var taken1 := taken + q[..|q| - |rest|];
      var keep1 := if IsDataPackage(p.name) then keep else keep + [Pkg(p)];
      && DrainTook(reg, transport, k0, arrivals, used, w, rest, taken1, seen + [p], keep1)
      && (KeptAck(reg, p) ==> DrainEnded(reg, seen + [p], taken1, rest))
      && (!KeptAck(reg, p) ==> Draining(reg, transport, k0, arrivals, used, w, rest, taken1, seen + [p], keep1))
  {
    TakeStep(q, rest, Got(p), taken, seen);
    KeepStep(seen, p);
    NoKeptAckStep(reg, seen, p);
    assert (seen + [p])[|seen|] == p;
  }

  /**
   * One turn of the drain, from the entries `q` to `rest`: what was taken so far still agrees with the
   * arrivals; the loop goes on only while it is still draining and has made progress, and it stops either
   * at the acknowledgement or the end (`completed`) or with every arrival handled and nothing queued.
   */
  ghost predicate TookOnce(reg: Registry, transport: Transport, k0: Link, arrivals: seq<Arrival>, used: nat, w: Link,
                           q: seq<Entry>, taken: seq<Entry>, seen: seq<Package>, keep: seq<Entry>,
                           stop: bool, completed: bool, used1: nat, w1: Link, rest: seq<Entry>,
                           taken1: seq<Entry>, seen1: seq<Package>, keep1: seq<Entry>)
  {
    && DrainTook(reg, transport, k0, arrivals, used1, w1, rest, taken1, seen1, keep1)
    && (!stop ==> Draining(reg, transport, k0, arrivals, used1, w1, rest, taken1, seen1, keep1)
                  && (used < used1 || (used1 == used && |rest| < |q|)))
    && (stop && completed ==> DrainEnded(reg, seen1, taken1, rest))
    && (stop && !completed ==> used1 == |arrivals| && rest == [] && NoKeptAckBefore(reg, seen1, |seen1|))
  }

  /**
   * A turn of the abort's drain whose `apoll` returned a package or ended the iteration: it stops, having
   * completed, on the end or a kept acknowledgement, and a package is kept unless it is a data package.
   */
  method TookPolled(reg: Registry, transport: Transport, ghost k0: Link, arrivals: seq<Arrival>, used: nat,
                    ghost w: Link, ghost q: seq<Entry>, ghost taken: seq<Entry>, ghost seen: seq<Package>,
                    keep: seq<Entry>, polled: Polled, ghost rest: seq<Entry>)
    returns (stop: bool, keep1: seq<Entry>, ghost taken1: seq<Entry>, ghost seen1: seq<Package>)
    requires Draining(reg, transport, k0, arrivals, used, w, q, taken, seen, keep)
    requires APollSpec(q) == (polled, rest) && !polled.Blocked?
    ensures TookOnce(reg, transport, k0, arrivals, used, w, q, taken, seen, keep,
                     stop, stop, used, w, rest, taken1, seen1, keep1)
  {
    if polled.End? {
      TookEnd(reg, transport, k0, arrivals, used, w, q, taken, seen, keep, rest);
      return true, keep, taken + q[..|q| - |rest|], seen;
    }
    var p := polled.p;
    TookGot(reg, transport, k0, arrivals, used, w, q, taken, seen, keep, p, rest);
    return KeptAck(reg, p), (if IsDataPackage(p.name) then keep else keep + [Pkg(p)]),
           taken + q[..|q| - |rest|], seen + [p];
  }

  /** A turn that polled the end of the iteration stops, completed. */
  lemma TookEnd(reg: Registry, transport: Transport, k0: Link, arrivals: seq<Arrival>, used: nat, w: Link,
                q: seq<Entry>, taken: seq<Entry>, seen: seq<Package>, keep: seq<Entry>, rest: seq<Entry>)
    requires Draining(reg, transport, k0, arrivals, used, w, q, taken, seen, keep)
    requires APollSpec(q) == (End, rest)
    ensures |rest| <= |q|
    ensures TookOnce(reg, transport, k0, arrivals, used, w, q, taken, seen, keep,
                     true, true, used, w, rest, taken + q[..|q| - |rest|], seen, keep)
  {
    DrainingEnd(reg, transport, k0, arrivals, used, w, q, taken, seen, keep, rest);
  }

  /** A turn that polled a package stops exactly on a kept acknowledgement, and otherwise has shortened the queue. */
  lemma TookGot(reg: Registry, transport: Transport, k0: Link, arrivals: seq<Arrival>, used: nat, w: Link,
                q: seq<Entry>, taken: seq<Entry>, seen: seq<Package>, keep: seq<Entry>, p: Package, rest: seq<Entry>)
    requires Draining(reg, transport, k0, arrivals, used, w, q, taken, seen, keep)
    requires APollSpec(q) == (Got(p), rest)
    ensures |rest| <= |q|
    ensures TookOnce(reg, transport, k0, arrivals, used, w, q, taken, seen, keep,
                     KeptAck(reg, p), KeptAck(reg, p), used, w, rest, taken + q[..|q| - |rest|], seen + [p],
                     if IsDataPackage(p.name) then keep else keep + [Pkg(p)])
  {
    DrainingGot(reg, transport, k0, arrivals, used, w, q, taken, seen, keep, p, rest);
    APollTakesFront(q);
  }

  /** `apoll` ended the iteration: the drain ends, having taken the final disconnect sentinel. */
  lemma DrainingEnd(reg: Registry, transport: Transport, k0: Link, arrivals: seq<Arrival>, used: nat, w: Link,
                    q: seq<Entry>, taken: seq<Entry>, seen: seq<Package>, keep: seq<Entry>, rest: seq<Entry>)
    requires Draining(reg, transport, k0, arrivals, used, w, q, taken, seen, keep)
    requires APollSpec(q) == (End, rest)
    ensures |rest| <= |q|
    ensures var taken1 := taken + q[..|q| - |rest|];
      DrainTook(reg, transport, k0, arrivals, used, w, rest, taken1, seen, keep) && DrainEnded(reg, seen, taken1, rest)
  {
    TakeStep(q, rest, End, taken, seen);
  }

  /** `apoll` would wait: the queue is emptied without ending the drain, which could not finish yet. */
  lemma DrainingBlocked(reg: Registry, transport: Transport, k0: Link, arrivals: seq<Arrival>, used: nat, w: Link,
                        q: seq<Entry>, taken: seq<Entry>, seen: seq<Package>, keep: seq<Entry>, rest: seq<Entry>)
    requires Draining(reg, transport, k0, arrivals, used, w, q, taken, seen, keep)
    requires APollSpec(q) == (Blocked, rest)
    ensures rest == [] && |rest| <= |q|
    ensures var taken1 := taken + q[..|q| - |rest|];
      Draining(reg, transport, k0, arrivals, used, w, [], taken1, seen, keep) && DrainWaits(reg, w.queue)
  {
    TakeStep(q, rest, Blocked, taken, seen);
    var taken1 := taken + q[..|q| - |rest|];
    assert w.queue == taken1 by {
      assert taken1 + [] == taken1;
    }
  }

  /** One more arrival while the queue is empty: the drain goes on over the entries it queued. */
  lemma DrainingArrived(reg: Registry, transport: Transport, k0: Link, arrivals: seq<Arrival>, used: nat, w: Link,
                        taken: seq<Entry>, seen: seq<Package>, keep: seq<Entry>, w1: Link, rest1: seq<Entry>)
    requires Draining(reg, transport, k0, arrivals, used, w, [], taken, seen, keep) && DrainWaits(reg, w.queue)
    requires used < |arrivals| && w1 == ArriveAll(reg, transport, k0, arrivals[..used + 1]) && w1.queue == taken + rest1
    ensures Draining(reg, transport, k0, arrivals, used + 1, w1, rest1, taken, seen, keep)
  {
    DrainWaitedNext(reg, transport, k0, arrivals, used);
  }

  /** An arrival handled on link `w` with the entries `taken` taken out of its queue. */
  lemma ArrivedBehind(reg: Registry, transport: Transport, k0: Link, arrivals: seq<Arrival>, n: nat, w: Link,
                      taken: seq<Entry>, before: Link, after: Link)
    requires n < |arrivals| && w == ArriveAll(reg, transport, k0, arrivals[..n])
    requires before == w.(queue := before.queue) && w.queue == taken + before.queue
    requires after == ArriveSpec(reg, transport, before, arrivals[n])
    ensures var w1 := ArriveAll(reg, transport, k0, arrivals[..n + 1]);
      after == w1.(queue := after.queue) && w1.queue == taken + after.queue
  {
    ArriveAllNext(reg, transport, k0, arrivals, n);
    var w1 := ArriveSpec(reg, transport, w, arrivals[n]);
    var more := w1.queue[|w.queue|..];
    ArriveSpecRequeue(reg, transport, w, before.queue, arrivals[n]);
    assert after.queue == before.queue + more;
    assert w1.queue == w.queue + more;
    AppendAssoc(taken, before.queue, more);
  }

  /** One `apoll` during the drain: the entries it takes extend `taken`, and their packages `seen`. */
  lemma TakeStep(q: seq<Entry>, rest: seq<Entry>, polled: Polled, taken: seq<Entry>, seen: seq<Package>)
    requires (polled, rest) == APollSpec(q) && PackagesIn(taken) == seen
    requires q == [] ==> taken == [] || taken[|taken| - 1] != DisconnectSentinel
    ensures |rest| <= |q|
    ensures var d := q[..|q| - |rest|];
      && taken + q == (taken + d) + rest
      && PackagesIn(taken + d) == (if polled.Got? then seen + [polled.p] else seen)
      && (rest == [] && !polled.End? ==> taken + d == [] || (taken + d)[|taken + d| - 1] != DisconnectSentinel)
      && (polled.End? ==> rest == [] && taken + d != [] && (taken + d)[|taken + d| - 1] == DisconnectSentinel)
      && (polled.Got? ==> taken + d != [] && (taken + d)[|taken + d| - 1] == Pkg(polled.p))
      && (polled.Blocked? ==> rest == [])
  {
    APollTakesFront(q);
    APollCases(q);
    var d := q[..|q| - |rest|];
    TakenGrows(taken, d, rest, seen, if polled.Got? then [polled.p] else []);
    if !polled.Got? {
      assert d == q;
      LastTaken(taken, q);
    } else {
      GotLast(taken, q, |q| - |rest|, polled.p);
    }
  }

  /** Taking the front of `q` up to a package entry leaves that entry last among those taken. */
  lemma GotLast(taken: seq<Entry>, q: seq<Entry>, n: nat, p: Package)
    requires 0 < n <= |q| && q[n - 1] == Pkg(p)
    ensures taken + q[..n] != [] && (taken + q[..n])[|taken + q[..n]| - 1] == Pkg(p)
  {
  }

  /** Taking the front `d` of `d + rest` after `taken`. */
  lemma TakenGrows(taken: seq<Entry>, d: seq<Entry>, rest: seq<Entry>, seen: seq<Package>, got: seq<Package>)
    requires PackagesIn(taken) == seen && PackagesIn(d) == got
    ensures taken + (d + rest) == (taken + d) + rest
    ensures PackagesIn(taken + d) == seen + got
  {
    PackagesInAppend(taken, d);
    AppendAssoc(taken, d, rest);
  }

  /** The last entry taken after taking `d` is `d`'s last one, or else the last of `taken`. */
  lemma LastTaken(taken: seq<Entry>, d: seq<Entry>)
    ensures d != [] ==> taken + d != [] && (taken + d)[|taken + d| - 1] == d[|d| - 1]
    ensures d == [] ==> taken + d == taken
  {
  }

  /** Taking one more package keeps exactly the non-data ones, in order. */
  lemma KeepStep(seen: seq<Package>, q: Package)
    ensures NonData(seen + [q]) == NonData(seen) + if IsDataPackage(q.name) then [] else [q]
    ensures Entries(NonData(seen + [q])) == Entries(NonData(seen)) + if IsDataPackage(q.name) then [] else [Pkg(q)]
  {
    assert (seen + [q])[..|seen|] == seen;
    if IsDataPackage(q.name) {
      assert NonData(seen) + [] == NonData(seen);
      assert Entries(NonData(seen)) + [] == Entries(NonData(seen));
    } else {
      EntriesSnoc(NonData(seen), q);
    }
  }

  /** Taking one more package that is not a kept acknowledgement still leaves none taken. */
  lemma NoKeptAckStep(reg: Registry, seen: seq<Package>, q: Package)
    requires NoKeptAckBefore(reg, seen, |seen|)
    ensures NoKeptAckBefore(reg, seen + [q], |seen|)
    ensures !KeptAck(reg, q) ==> NoKeptAckBefore(reg, seen + [q], |seen| + 1)
  {
    forall i | 0 <= i < |seen|
      ensures (seen + [q])[i] == seen[i]
    {
    }
  }
}
