/**
 * The frame codec (`Unpacker`): an in-place byte buffer that is grown by `Feed`, shrunk from the front
 * as frames are recognised, a FIFO of real-time packages extracted from BLE chunks, and two sticky modes
 * (resynchronise on garbage, skip until the stop-streaming acknowledgement).
 *
 * The pure functions `Fill`, `ScanFrame`, `Step`, `Drain` and `ExtractRt` specify the codec on a snapshot
 * of its fields (`CodecState`); every method of `Unpacker` is proved to move its fields exactly as they say.
 */
module Codec {
  import opened Common
  import opened Packages

  /** The marker every frame starts with. */
  const START_BYTE: bv8 := 2
  const HEADER_SIZE: nat := 8
  /** The checksum covers the frame from this offset (just after the checksum field) to its end. */
  const CRC_FROM: nat := 6
  /** A BLE chunk carries at most this many real-time packages. */
  const MAX_RT_PACKAGES: nat := 3

  datatype ParseError =
    | TooManyRtPackages(count: int)
    | Truncated(needed: nat, available: nat)
    | BadStartByte(startByte: bv8)
    | CrcMismatch(computed: bv32, received: bv32)
    | UnknownCommand(header: bv16)
    | SizeMismatch(header: bv16, payloadSize: nat, expected: nat)

  /** What one call of the iterator produces: a package, the end of the available data, or an error. */
  datatype NextResult = Yield(p: Package) | Stop | Raise(error: ParseError)

  /**
   * A snapshot of an unpacker: the buffer, the queued real-time packages, the two modes, and the
   * not yet read rest of the attached byte source (None when no source is attached).
   */
  datatype CodecState = CodecState(
    buffer: seq<bv8>,
    rt: seq<Package>,
    ignoreGarbage: bool,
    waitAck: bool,
    file: Option<seq<bv8>>)
  {
    function FileRest(): seq<bv8>
    {
      if file.Some? then file.value else []
    }

    /** Bytes still to be parsed, buffered or not yet read. */
    function Pending(): nat
    {
      |buffer| + |FileRest()|
    }
  }

  /** Work left to an unpacker; every yielded package strictly lowers it. */
  function Measure(s: CodecState): nat
  {
    |s.rt| + s.Pending()
  }

  /** The state with its source read into the buffer and detached. */
  function Flat(s: CodecState): CodecState
  {
    s.(buffer := s.buffer + s.FileRest(), file := None)
  }

  /**
   * Makes `n` bytes available if the source allows: reads the missing bytes from the source
   * (a read returns all requested bytes the source still has). Never removes a buffered byte.
   */
  function Fill(s: CodecState, n: nat): (r: CodecState)
    ensures s.buffer <= r.buffer
    ensures r.buffer + r.FileRest() == s.buffer + s.FileRest()
    ensures |r.buffer| < n ==> r.FileRest() == []
    ensures r.rt == s.rt && r.ignoreGarbage == s.ignoreGarbage && r.waitAck == s.waitAck
    ensures r.file.Some? == s.file.Some?
  {
    if s.file.Some? && |s.buffer| < n then
      var k := Min(n - |s.buffer|, |s.file.value|);
      assert s.file.value[..k] + s.file.value[k..] == s.file.value;
      s.(buffer := s.buffer + s.file.value[..k], file := Some(s.file.value[k..]))
    else
      s
  }

  /** The state with its first `k` buffered bytes deleted. */
  function Consume(s: CodecState, k: nat): (r: CodecState)
    requires k <= |s.buffer|
  {
    s.(buffer := s.buffer[k..])
  }

  /** The outcome of one pass of the iterator's retry loop: go round again, or finish with a result. */
  datatype Attempt = Retry | Done(result: NextResult)

  /** One pass of the retry loop on the main stream: wait for a header, then go on with `ScanHeader`. */
  function ScanOnce(reg: Registry, s: CodecState): (r: (Attempt, CodecState))
    ensures r.1.rt == s.rt
    ensures s.file.None? ==> r.1.file.None?
    ensures r.1.Pending() <= s.Pending()
    ensures r.0.Retry? || (r.0.Done? && r.0.result.Yield?) ==> r.1.Pending() < s.Pending()
  {
    var s1 := Fill(s, HEADER_SIZE);
    if |s1.buffer| < HEADER_SIZE then (Done(Stop), s1)
    else ScanHeader(reg, s1)
  }

  /**
   * A pass once a header is buffered: apply the current mode's synchronisation rule to it, then go on
   * with `ScanPayload`.
   */
  function ScanHeader(reg: Registry, s: CodecState): (r: (Attempt, CodecState))
    requires |s.buffer| >= HEADER_SIZE
    ensures r.1.rt == s.rt
    ensures s.file.None? ==> r.1.file.None?
    ensures r.1.Pending() <= s.Pending()
    ensures r.0.Retry? || (r.0.Done? && r.0.result.Yield?) ==> r.1.Pending() < s.Pending()
  {
    var h := reg.headerOf(s.buffer[..HEADER_SIZE]);
    if s.waitAck && (h.startByte != START_BYTE || h.header != reg.headers.ackStopStreamingAndClearBuffer) then
      (Retry, Consume(s, 1))
    else if !s.waitAck && h.startByte != START_BYTE then
      if s.ignoreGarbage then (Retry, Consume(s, 1))
      else (Done(Raise(BadStartByte(h.startByte))), s)
    else ScanPayload(reg, s.(waitAck := false), h)
  }

  /**
   * The rest of a pass once the header `h` at the front of the buffer is accepted: wait for the payload,
   * then go on with `ScanFilled`.
   */
  function ScanPayload(reg: Registry, s: CodecState, h: FrameHeader): (r: (Attempt, CodecState))
    requires |s.buffer| >= HEADER_SIZE
    ensures r.1.rt == s.rt
    ensures s.file.None? ==> r.1.file.None?
    ensures r.1.Pending() <= s.Pending()
    ensures r.0.Retry? || (r.0.Done? && r.0.result.Yield?) ==> r.1.Pending() < s.Pending()
  {
    var n := HEADER_SIZE + h.payloadSize;
    var s3 := Fill(s, n);
    if |s3.buffer| < n then (Done(Stop), s3)
    else ScanFilled(reg, s3, h)
  }

  /**
   * The end of a pass once the whole frame announced by `h` is buffered: check the CRC, look the
   * command up, check the size, decode. Only the buffer and the resynchronisation mode can change.
   */
  function ScanFilled(reg: Registry, s: CodecState, h: FrameHeader): (r: (Attempt, CodecState))
    requires |s.buffer| >= HEADER_SIZE + h.payloadSize
    ensures r.1 == s.(buffer := r.1.buffer, ignoreGarbage := r.1.ignoreGarbage)
    ensures |r.1.buffer| <= |s.buffer|
    ensures r.0.Retry? || (r.0.Done? && r.0.result.Yield?) ==> |r.1.buffer| < |s.buffer|
  {
    var n := HEADER_SIZE + h.payloadSize;
    var crc := reg.checksum(s.buffer[CRC_FROM..n]);
    if crc != h.crc32 then
      if s.ignoreGarbage then (Retry, Consume(s, 1))
      else (Done(Raise(CrcMismatch(crc, h.crc32))), s)
    else if h.header !in reg.packages then
      (Retry, Consume(s, n))
    else
      var cls := reg.packages[h.header];
      if !cls.variableSize && h.payloadSize != cls.size then
        (Done(Raise(SizeMismatch(h.header, h.payloadSize, cls.size))), s)
      else
        (Done(Yield(Decode(reg, h.header, cls, s.buffer[HEADER_SIZE..n]))),
         Consume(s, n).(ignoreGarbage := false))
  }

  /** The main-stream part of one iterator call: passes of the retry loop until one finishes. */
  function ScanFrame(reg: Registry, s: CodecState): (r: (NextResult, CodecState))
    ensures r.1.rt == s.rt
    ensures s.file.None? ==> r.1.file.None?
    ensures r.1.Pending() <= s.Pending()
    ensures r.0.Yield? ==> r.1.Pending() < s.Pending()
    decreases s.Pending()
  {
    var (a, s1) := ScanOnce(reg, s);
    match a
    case Retry => ScanFrame(reg, s1)
    case Done(res) => (res, s1)
  }

  /** One call of the iterator: the real-time FIFO first, then the main stream. */
  function Step(reg: Registry, s: CodecState): (r: (NextResult, CodecState))
    ensures s.file.None? ==> r.1.file.None?
    ensures r.0.Stop? ==> r.1.rt == []
    ensures Measure(r.1) <= Measure(s)
    ensures r.0.Yield? ==> Measure(r.1) < Measure(s)
  {
    if s.rt != [] then (Yield(s.rt[0]), s.(rt := s.rt[1..]))
    else ScanFrame(reg, s)
  }

  /**
   * Calling the iterator until it stops or fails: the packages produced, the final state, and how it ended.
   * Queued real-time packages come first; `DrainMain` continues on the main stream.
   */
  function Drain(reg: Registry, s: CodecState): (r: (seq<Package>, CodecState, Outcome<ParseError>))
    ensures s.file.None? ==> r.1.file.None?
    ensures r.2.Pass? ==> r.1.rt == []
    decreases Measure(s), 1
  {
    if s.rt != [] then
      var d := Drain(reg, s.(rt := s.rt[1..]));
      ([s.rt[0]] + d.0, d.1, d.2)
    else DrainMain(reg, s)
  }

  /** `Drain` once the real-time queue is empty. */
  function DrainMain(reg: Registry, s: CodecState): (r: (seq<Package>, CodecState, Outcome<ParseError>))
    requires s.rt == []
    ensures s.file.None? ==> r.1.file.None?
    ensures r.2.Pass? ==> r.1.rt == []
    decreases Measure(s), 0
  {
    var (res, s1) := ScanFrame(reg, s);
    match res
    case Yield(p) =>
      var d := Drain(reg, s1);
      ([p] + d.0, d.1, d.2)
    case Stop => ([], s1, Pass)
    case Raise(e) => ([], s1, Fail(e))
  }

  /** A real-time package takes the chunk's receive timestamp when it is a clock round-trip package. */
  function RtStamp(p: Package, receiveTimestamp: Option<int>): (r: Package)
    ensures r.header == p.header && r.name == p.name
    ensures r.body.ClockRoundtrip? <==> p.body.ClockRoundtrip?
    ensures !p.body.ClockRoundtrip? || receiveTimestamp.None? ==> r == p
    ensures p.body.ClockRoundtrip? && receiveTimestamp.Some? ==>
      r.body.hostReceiveTimestamp == receiveTimestamp.value && r.body.otherFields == p.body.otherFields
  {
    if p.body.ClockRoundtrip? && receiveTimestamp.Some? then
      p.(body := p.body.(hostReceiveTimestamp := receiveTimestamp.value))
    else p
  }

  /**
   * Decodes the one real-time frame that starts at `pos`: the package and the position after the frame,
   * or why the frame is rejected. The size check applies to every class here, variable-size or not.
   */
  function RtFrame(reg: Registry, data: seq<bv8>, pos: nat, ts: Option<int>): (r: Result<(Package, nat), ParseError>)
    requires pos <= |data|
    ensures r.Success? ==> pos + HEADER_SIZE <= r.value.1 <= |data|
  {
    if |data| < pos + HEADER_SIZE then Failure(Truncated(pos + HEADER_SIZE, |data|))
    else
      var h := reg.headerOf(data[pos..pos + HEADER_SIZE]);
      var end := pos + HEADER_SIZE + h.payloadSize;
      if h.startByte != START_BYTE then Failure(BadStartByte(h.startByte))
      else if |data| < end then Failure(Truncated(end, |data|))
      else
        var crc := reg.checksum(data[pos + CRC_FROM..end]);
        if crc != h.crc32 then Failure(CrcMismatch(crc, h.crc32))
        else if h.header !in reg.packages then Failure(UnknownCommand(h.header))
        else
          var cls := reg.packages[h.header];
          if h.payloadSize != cls.size then Failure(SizeMismatch(h.header, h.payloadSize, cls.size))
          else Success((RtStamp(Decode(reg, h.header, cls, data[pos + HEADER_SIZE..end]), ts), end))
  }

  /**
   * Decodes `count` consecutive real-time frames from `data` starting at `pos`. Returns the packages decoded
   * before the end or the first error, and the position after the last frame or the error.
   */
  function RtFrames(reg: Registry, data: seq<bv8>, pos: nat, count: nat, ts: Option<int>)
    : (r: (seq<Package>, Result<nat, ParseError>))
    requires pos <= |data|
    ensures r.1.Success? ==> pos <= r.1.value <= |data| && |r.0| == count
    ensures r.1.Failure? ==> |r.0| < count
    decreases count
  {
    if count == 0 then ([], Success(pos))
    else
      match RtFrame(reg, data, pos, ts)
      case Failure(e) => ([], Failure(e))
      case Success((p, end)) =>
        var rest := RtFrames(reg, data, end, count - 1, ts);
        ([p] + rest.0, rest.1)
  }

  /** How `RtFrames` proceeds after its first frame. */
  lemma RtFramesStep(reg: Registry, data: seq<bv8>, pos: nat, count: nat, ts: Option<int>)
    requires 0 < count && pos <= |data|
    ensures var f := RtFrame(reg, data, pos, ts);
      f.Failure? ==> RtFrames(reg, data, pos, count, ts) == ([], Failure(f.error))
    ensures var f := RtFrame(reg, data, pos, ts);
      var rest := if f.Success? then RtFrames(reg, data, f.value.1, count - 1, ts) else ([], Success(pos));
      f.Success? ==> RtFrames(reg, data, pos, count, ts) == ([f.value.0] + rest.0, rest.1)
  {
  }

  /** The loop of `extractRtPackages` after one more frame is decoded and queued. */
  lemma RtFramesAdvance(reg: Registry, data: seq<bv8>, pos: nat, left: nat, ts: Option<int>, base: seq<Package>,
                        queued: seq<Package>, all: (seq<Package>, Result<nat, ParseError>), p: Package, end: nat)
    requires 0 < left && pos <= end <= |data| && RtFrame(reg, data, pos, ts) == Success((p, end))
    requires all.1 == RtFrames(reg, data, pos, left, ts).1
    requires base + all.0 == queued + RtFrames(reg, data, pos, left, ts).0
    ensures all.1 == RtFrames(reg, data, end, left - 1, ts).1
    ensures base + all.0 == (queued + [p]) + RtFrames(reg, data, end, left - 1, ts).0
  {
    RtFramesStep(reg, data, pos, left, ts);
    ShiftOne(queued, p, RtFrames(reg, data, end, left - 1, ts).0);
  }

  /** The loop of `extractRtPackages` when the next frame is rejected: nothing more is queued. */
  lemma RtFramesStopAt(reg: Registry, data: seq<bv8>, pos: nat, left: nat, ts: Option<int>, base: seq<Package>,
                       queued: seq<Package>, all: (seq<Package>, Result<nat, ParseError>))
    requires 0 < left && pos <= |data| && RtFrame(reg, data, pos, ts).Failure?
    requires all.1 == RtFrames(reg, data, pos, left, ts).1
    requires base + all.0 == queued + RtFrames(reg, data, pos, left, ts).0
    ensures all.1 == Failure(RtFrame(reg, data, pos, ts).error) && base + all.0 == queued
  {
    RtFramesStep(reg, data, pos, left, ts);
    assert queued + [] == queued;
  }

  /**
   * Real-time extraction from one BLE chunk: the packages to queue (in wire order) and either the
   * untouched rest of the chunk or the error.
   */
  function ExtractRt(reg: Registry, data: seq<bv8>, ts: Option<int>): (r: (seq<Package>, Result<seq<bv8>, ParseError>))
    ensures r.1.Success? ==> |r.1.value| <= |data| && r.1.value == data[|data| - |r.1.value|..]
    ensures data != [] && 255 - data[0] as int <= MAX_RT_PACKAGES && r.1.Success? ==> |r.0| == 255 - data[0] as int
    ensures data == [] || 255 - data[0] as int > MAX_RT_PACKAGES ==> r.0 == []
  {
    if |data| == 0 then ([], Success(data))
    else
      var count := 255 - data[0] as int;
      if count > MAX_RT_PACKAGES then ([], Failure(TooManyRtPackages(count)))
      else
        var (ps, res) := RtFrames(reg, data, 1, count, ts);
        (ps, if res.Success? then Success(data[res.value..]) else Failure(res.error))
  }

  /** The unpacker object: the fields the source mutates in place. */
  class Unpacker {
    const reg: Registry
    var buffer: seq<bv8>
    var rtPackages: seq<Package>
    var ignoreInitialGarbage: bool
    var waitForAckStopStreamingAndClearBuffer: bool
    /** The part of the attached byte source not read yet; None when bytes are fed by hand. */
    var file: Option<seq<bv8>>

    ghost function State(): CodecState
      reads this
    {
      CodecState(buffer, rtPackages, ignoreInitialGarbage, waitForAckStopStreamingAndClearBuffer, file)
    }

    constructor (reg: Registry, file: Option<seq<bv8>>, ignoreInitialGarbage: bool)
      ensures this.reg == reg
      ensures State() == CodecState([], [], ignoreInitialGarbage, false, file)
    {
      this.reg := reg;
      this.file := file;
      this.ignoreInitialGarbage := ignoreInitialGarbage;
      waitForAckStopStreamingAndClearBuffer := false;
      buffer := [];
      rtPackages := [];
    }

    /** Appends raw bytes to the buffer; parses nothing. */
    method Feed(data: seq<bv8>)
      modifies this
      ensures State() == old(State()).(buffer := old(buffer) + data)
    {
      buffer := buffer + data;
    }

    method Clear()
      modifies this
      ensures State() == old(State()).(buffer := [])
    {
      buffer := [];
    }

    /** Decodes the real-time frame at `pos` of a BLE chunk. */
    method DecodeRtFrame(data: seq<bv8>, pos: nat, receiveTimestamp: Option<int>) returns (r: Result<(Package, nat), ParseError>)
      requires pos <= |data|
      ensures r == RtFrame(reg, data, pos, receiveTimestamp)
    {
      if |data| < pos + HEADER_SIZE {
        return Failure(Truncated(pos + HEADER_SIZE, |data|));
      }
      var frame := reg.headerOf(data[pos..pos + HEADER_SIZE]);
      if frame.startByte != START_BYTE {
        return Failure(BadStartByte(frame.startByte));
      }
      var end := pos + HEADER_SIZE + frame.payloadSize;
      if |data| < end {
        return Failure(Truncated(end, |data|));
      }
      var crc := reg.checksum(data[pos + CRC_FROM..end]);
      if crc != frame.crc32 {
        return Failure(CrcMismatch(crc, frame.crc32));
      }
      if frame.header !in reg.packages {
        return Failure(UnknownCommand(frame.header));
      }
      var cls := reg.packages[frame.header];
      if frame.payloadSize != cls.size {
        return Failure(SizeMismatch(frame.header, frame.payloadSize, cls.size));
      }
      var package := Decode(reg, frame.header, cls, data[pos + HEADER_SIZE..end]);
      if package.body.ClockRoundtrip? && receiveTimestamp.Some? {
        package := package.(body := package.body.(hostReceiveTimestamp := receiveTimestamp.value));
      }
      return Success((package, end));
    }

    /** Queues the real-time packages at the front of a BLE chunk and returns the rest of the chunk. */
    method ExtractRtPackages(data: seq<bv8>, receiveTimestamp: Option<int>) returns (r: Result<seq<bv8>, ParseError>)
      modifies this
      ensures var e := ExtractRt(reg, data, receiveTimestamp);
        r == e.1 && State() == old(State()).(rt := old(rtPackages) + e.0)
    {
      if |data| == 0 {
        return Success(data);
      }
      var count: nat := 255 - data[0] as int;
      if count > MAX_RT_PACKAGES {
        return Failure(TooManyRtPackages(count));
      }
      var end := QueueRtFrames(data, count, receiveTimestamp);
      r := if end.Success? then Success(data[end.value..]) else Failure(end.error);
    }

    /** The loop of `extractRtPackages`: decodes and queues `count` frames that follow the count byte. */
    method QueueRtFrames(data: seq<bv8>, count: nat, receiveTimestamp: Option<int>) returns (r: Result<nat, ParseError>)
      requires 1 <= |data|
      modifies this
      ensures r == RtFrames(reg, data, 1, count, receiveTimestamp).1
      ensures rtPackages == old(rtPackages) + RtFrames(reg, data, 1, count, receiveTimestamp).0
      ensures State() == old(State()).(rt := rtPackages)
    {
      ghost var all := RtFrames(reg, data, 1, count, receiveTimestamp);
      var pos := 1;
      var left := count;
      while left > 0
        invariant 1 <= pos <= |data|
        invariant State() == old(State()).(rt := rtPackages)
        invariant all.1 == RtFrames(reg, data, pos, left, receiveTimestamp).1
        invariant old(rtPackages) + all.0 == rtPackages + RtFrames(reg, data, pos, left, receiveTimestamp).0
      {
        var frame := DecodeRtFrame(data, pos, receiveTimestamp);
        if frame.Failure? {
          RtFramesStopAt(reg, data, pos, left, receiveTimestamp, old(rtPackages), rtPackages, all);
          return Failure(frame.error);
        }
        var (package, end) := frame.value;
        RtFramesAdvance(reg, data, pos, left, receiveTimestamp, old(rtPackages), rtPackages, all, package, end);
        rtPackages := rtPackages + [package];
        pos := end;
        left := left - 1;
      }
      assert rtPackages + [] == rtPackages;
      r := Success(pos);
    }

    /** Reads from the attached source until `n` bytes are buffered; reports whether they are. */
    method EnsureAvailable(n: nat) returns (ok: bool)
      modifies this
      ensures State() == Fill(old(State()), n)
      ensures old(buffer) <= buffer
      ensures ok <==> |buffer| >= n
    {
      if file.Some? && |buffer| < n {
        var k := Min(n - |buffer|, |file.value|);
        buffer := buffer + file.value[..k];
        file := Some(file.value[k..]);
      }
      ok := |buffer| >= n;
    }

    /** One pass of the body of `__next__`'s retry loop. */
    method TryFrame() returns (a: Attempt)
      modifies this
      ensures (a, State()) == ScanOnce(reg, old(State()))
    {
      var ok := EnsureAvailable(HEADER_SIZE);
      if !ok {
        return Done(Stop);
      }
      ghost var s1 := State();
      assert ScanOnce(reg, old(State())) == ScanHeader(reg, s1);
      var frame := reg.headerOf(buffer[..HEADER_SIZE]);
      if waitForAckStopStreamingAndClearBuffer {
        if frame.startByte != START_BYTE {
          buffer := buffer[1..];
          return Retry;
        } else if frame.header != reg.headers.ackStopStreamingAndClearBuffer {
          buffer := buffer[1..];
          return Retry;
        } else {
          waitForAckStopStreamingAndClearBuffer := false;
        }
      } else if ignoreInitialGarbage {
        if frame.startByte != START_BYTE {
          buffer := buffer[1..];
          return Retry;
        }
      } else if frame.startByte != START_BYTE {
        return Done(Raise(BadStartByte(frame.startByte)));
      }
      assert ScanHeader(reg, s1) == ScanPayload(reg, State(), frame);
      ghost var s2 := State();
      var n := HEADER_SIZE + frame.payloadSize;
      ok := EnsureAvailable(n);
      if !ok {
        return Done(Stop);
      }
      assert ScanPayload(reg, s2, frame) == ScanFilled(reg, State(), frame);
      var crc := reg.checksum(buffer[CRC_FROM..n]);
      if crc != frame.crc32 {
        if ignoreInitialGarbage {
          buffer := buffer[1..];
          return Retry;
        } else {
          return Done(Raise(CrcMismatch(crc, frame.crc32)));
        }
      }
      if frame.header !in reg.packages {
        buffer := buffer[n..];
        return Retry;
      }
      var cls := reg.packages[frame.header];
      if !cls.variableSize && frame.payloadSize != cls.size {
        return Done(Raise(SizeMismatch(frame.header, frame.payloadSize, cls.size)));
      }
      var package := Decode(reg, frame.header, cls, buffer[HEADER_SIZE..n]);
      buffer := buffer[n..];
      ignoreInitialGarbage := false;
      return Done(Yield(package));
    }

    /** The iterator's `__next__`: a real-time package if one is queued, else the next frame of the buffer. */
    method Next() returns (r: NextResult)
      modifies this
      ensures (r, State()) == Step(reg, old(State()))
    {
      if rtPackages != [] {
        r := Yield(rtPackages[0]);
        rtPackages := rtPackages[1..];
        return;
      }
      while true
        invariant rtPackages == []
        invariant ScanFrame(reg, State()) == ScanFrame(reg, old(State()))
        decreases State().Pending()
      {
        var a := TryFrame();
        if a.Done? {
          return a.result;
        }
      }
    }
  }
}
