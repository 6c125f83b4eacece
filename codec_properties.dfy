/**
 * What the frame codec promises, stated over the specification functions of module `Codec`:
 * the effect of a well-formed frame, of each kind of bad frame in each mode, of the acknowledgement wait,
 * of a whole stream of frames, of where the bytes come from (attached source or fed by hand, in one chunk
 * or in several), and of real-time extraction in both directions.
 */
module CodecProperties {
  import opened Common
  import opened Packages
  import opened Codec

  /** The header decoded from the first 8 bytes of `b`. */
  function HeaderAt(reg: Registry, b: seq<bv8>): FrameHeader
    requires |b| >= HEADER_SIZE
  {
    reg.headerOf(b[..HEADER_SIZE])
  }

  /**
   * `f` is exactly one well-formed frame of the main stream and `p` the package it carries: start byte 2,
   * as long as its header declares, the checksum matches, the command is registered and, for a fixed-size
   * class, the payload has the class's size.
   */
  predicate IsFrame(reg: Registry, f: seq<bv8>, p: Package)
  {
    |f| >= HEADER_SIZE &&
    var h := HeaderAt(reg, f);
    h.startByte == START_BYTE && |f| == HEADER_SIZE + h.payloadSize &&
    reg.checksum(f[CRC_FROM..]) == h.crc32 &&
    h.header in reg.packages &&
    (reg.packages[h.header].variableSize || h.payloadSize == reg.packages[h.header].size) &&
    p == Decode(reg, h.header, reg.packages[h.header], f[HEADER_SIZE..])
  }

  /** The buffered bytes cannot make a frame yet: no full header, or a valid start byte but a short payload. */
  predicate Incomplete(reg: Registry, b: seq<bv8>)
  {
    |b| < HEADER_SIZE ||
    (HeaderAt(reg, b).startByte == START_BYTE && |b| < HEADER_SIZE + HeaderAt(reg, b).payloadSize)
  }

  /** The 8 bytes at `i` of `b` are the header of a stop-streaming acknowledgement. */
  predicate AckAt(reg: Registry, b: seq<bv8>, i: nat)
  {
    i + HEADER_SIZE <= |b| &&
    HeaderAt(reg, b[i..]).startByte == START_BYTE &&
    HeaderAt(reg, b[i..]).header == reg.headers.ackStopStreamingAndClearBuffer
  }

  /**
   * A well-formed frame at the front of the buffer is returned, exactly its bytes are consumed, and
   * both recovery modes end (in ack-wait mode the frame must be the acknowledgement).
   */
  lemma FrameYields(reg: Registry, s: CodecState, f: seq<bv8>, p: Package, rest: seq<bv8>)
    requires IsFrame(reg, f, p) && s.buffer == f + rest
    requires s.waitAck ==> HeaderAt(reg, f).header == reg.headers.ackStopStreamingAndClearBuffer
    ensures ScanFrame(reg, s) == (Yield(p), s.(buffer := rest, ignoreGarbage := false, waitAck := false))
  {
    var n := |f|;
    assert s.buffer[..HEADER_SIZE] == f[..HEADER_SIZE];
    assert s.buffer[CRC_FROM..n] == f[CRC_FROM..];
    assert s.buffer[HEADER_SIZE..n] == f[HEADER_SIZE..];
    assert s.buffer[n..] == rest;
  }

  /**
   * With no source attached and no acknowledgement awaited, an incomplete frame stops the iterator
   * and leaves every field as it was; in particular no byte is consumed.
   */
  lemma IncompleteStops(reg: Registry, s: CodecState)
    requires s.file.None? && !s.waitAck && Incomplete(reg, s.buffer)
    ensures ScanFrame(reg, s) == (Stop, s)
  {
  }

  /** A bad start byte outside ack-wait mode: one byte is dropped when resynchronising, an error otherwise. */
  lemma BadStartByteRule(reg: Registry, s: CodecState)
    requires !s.waitAck && |s.buffer| >= HEADER_SIZE && HeaderAt(reg, s.buffer).startByte != START_BYTE
    ensures s.ignoreGarbage ==> ScanFrame(reg, s) == ScanFrame(reg, s.(buffer := s.buffer[1..]))
    ensures !s.ignoreGarbage ==> ScanFrame(reg, s) == (Raise(BadStartByte(HeaderAt(reg, s.buffer).startByte)), s)
  {
  }

  /**
   * A complete frame whose checksum does not match (start byte valid, not awaiting an acknowledgement):
   * one byte is dropped when resynchronising, an error otherwise.
   */
  lemma CrcMismatchRule(reg: Registry, s: CodecState)
    requires !s.waitAck && |s.buffer| >= HEADER_SIZE
    requires var h := HeaderAt(reg, s.buffer);
      h.startByte == START_BYTE && |s.buffer| >= HEADER_SIZE + h.payloadSize &&
      reg.checksum(s.buffer[CRC_FROM..HEADER_SIZE + h.payloadSize]) != h.crc32
    ensures s.ignoreGarbage ==> ScanFrame(reg, s) == ScanFrame(reg, s.(buffer := s.buffer[1..]))
    ensures var h := HeaderAt(reg, s.buffer);
      !s.ignoreGarbage ==>
        ScanFrame(reg, s) == (Raise(CrcMismatch(reg.checksum(s.buffer[CRC_FROM..HEADER_SIZE + h.payloadSize]), h.crc32)), s)
  {
    var h := HeaderAt(reg, s.buffer);
    assert Fill(s, HEADER_SIZE) == s;
    assert s.(waitAck := false) == s;
    assert Fill(s, HEADER_SIZE + h.payloadSize) == s;
    assert ScanOnce(reg, s) == ScanFilled(reg, s, h);
  }

  /** A complete, checksum-valid frame with an unregistered command is skipped whole, in every mode. */
  lemma UnknownCommandSkipped(reg: Registry, s: CodecState)
    requires !s.waitAck && |s.buffer| >= HEADER_SIZE
    requires var h := HeaderAt(reg, s.buffer);
      h.startByte == START_BYTE && |s.buffer| >= HEADER_SIZE + h.payloadSize &&
      reg.checksum(s.buffer[CRC_FROM..HEADER_SIZE + h.payloadSize]) == h.crc32 &&
      h.header !in reg.packages
    ensures ScanFrame(reg, s) == ScanFrame(reg, s.(buffer := s.buffer[HEADER_SIZE + HeaderAt(reg, s.buffer).payloadSize..]))
  {
  }

  /** A fixed-size class whose frame declares another size is an error in every mode, and nothing is consumed. */
  lemma SizeMismatchRaises(reg: Registry, s: CodecState)
    requires !s.waitAck && |s.buffer| >= HEADER_SIZE
    requires var h := HeaderAt(reg, s.buffer);
      h.startByte == START_BYTE && |s.buffer| >= HEADER_SIZE + h.payloadSize &&
      reg.checksum(s.buffer[CRC_FROM..HEADER_SIZE + h.payloadSize]) == h.crc32 &&
      h.header in reg.packages && !reg.packages[h.header].variableSize &&
      h.payloadSize != reg.packages[h.header].size
    ensures var h := HeaderAt(reg, s.buffer);
      ScanFrame(reg, s) == (Raise(SizeMismatch(h.header, h.payloadSize, reg.packages[h.header].size)), s)
  {
  }

  /**
   * In ack-wait mode the bytes before the acknowledgement frame are dropped one at a time, whatever they
   * are, as long as no acknowledgement header starts among them; the acknowledgement is then returned
   * and the wait ends.
   */
  lemma {:induction false} SkipsToAck(reg: Registry, s: CodecState, junk: seq<bv8>, f: seq<bv8>, p: Package, rest: seq<bv8>)
    requires s.waitAck && s.buffer == junk + f + rest
    requires IsFrame(reg, f, p) && HeaderAt(reg, f).header == reg.headers.ackStopStreamingAndClearBuffer
    requires forall i | 0 <= i < |junk| :: !AckAt(reg, s.buffer, i)
    ensures ScanFrame(reg, s) == (Yield(p), s.(buffer := rest, ignoreGarbage := false, waitAck := false))
    decreases |junk|
  {
    if junk == [] {
      assert s.buffer == f + rest;
      FrameYields(reg, s, f, p, rest);
    } else {
      var b := s.buffer;
      assert !AckAt(reg, b, 0) && b[0..] == b;
      var s1 := s.(buffer := b[1..]);
      assert ScanOnce(reg, s) == (Retry, s1);
      assert b[1..] == junk[1..] + f + rest;
      forall i | 0 <= i < |junk| - 1
        ensures !AckAt(reg, s1.buffer, i)
      {
        assert !AckAt(reg, b, i + 1);
        assert b[1..][i..] == b[i + 1..];
      }
      SkipsToAck(reg, s1, junk[1..], f, p, rest);
    }
  }

  /**
   * A buffer holding well-formed frames followed by an incomplete one, with no source attached: draining
   * returns exactly the frames' packages in order, passes, and leaves only the incomplete tail buffered.
   */
  lemma {:induction false} DrainFrames(reg: Registry, s: CodecState, fs: seq<seq<bv8>>, ps: seq<Package>, tail: seq<bv8>)
    requires |fs| == |ps| && forall i | 0 <= i < |fs| :: IsFrame(reg, fs[i], ps[i])
    requires s.rt == [] && !s.waitAck && s.file.None?
    requires s.buffer == Flatten(fs) + tail && Incomplete(reg, tail)
    ensures Drain(reg, s) == (ps, s.(buffer := tail, ignoreGarbage := if fs == [] then s.ignoreGarbage else false), Pass)
    decreases |fs|
  {
    if fs == [] {
      assert s.buffer == tail;
      IncompleteStops(reg, s);
      assert Step(reg, s) == (Stop, s);
    } else {
      var rest := Flatten(fs[1..]) + tail;
      assert s.buffer == fs[0] + rest;
      FrameYields(reg, s, fs[0], ps[0], rest);
      var s1 := s.(buffer := rest, ignoreGarbage := false);
      assert Step(reg, s) == (Yield(ps[0]), s1);
      DrainFrames(reg, s1, fs[1..], ps[1..], tail);
      assert ps == [ps[0]] + ps[1..];
    }
  }

  /**
   * `Drain` is the iterator called until it stops or fails: each call of `Step` either yields a package
   * and the drain goes on from the new state, or ends the drain with its state and outcome.
   */
  lemma DrainIteratesStep(reg: Registry, s: CodecState)
    ensures var (res, s1) := Step(reg, s);
      var d := Drain(reg, s1);
      Drain(reg, s) == match res
        case Yield(p) => ([p] + d.0, d.1, d.2)
        case Stop => ([], s1, Pass)
        case Raise(e) => ([], s1, Fail(e))
  {
  }

  /** The drain of `s0` produces `done` on its way to `s`, and from there goes on as the drain of `s`. */
  ghost predicate DrainsVia(reg: Registry, s0: CodecState, done: seq<Package>, s: CodecState)
  {
    var d := Drain(reg, s);
    Drain(reg, s0) == (done + d.0, d.1, d.2)
  }

  lemma DrainsViaStart(reg: Registry, s: CodecState)
    ensures DrainsVia(reg, s, [], s)
  {
    assert [] + Drain(reg, s).0 == Drain(reg, s).0;
  }

  /** A yielding call of the iterator moves one package from what is left to what was produced. */
  lemma DrainsViaYield(reg: Registry, s0: CodecState, done: seq<Package>, s: CodecState, p: Package, s1: CodecState)
    requires DrainsVia(reg, s0, done, s) && Step(reg, s) == (Yield(p), s1)
    ensures DrainsVia(reg, s0, done + [p], s1)
  {
    DrainIteratesStep(reg, s);
    ShiftOne(done, p, Drain(reg, s1).0);
  }

  /** A call of the iterator that stops or fails ends the drain with what was produced so far. */
  lemma DrainsViaEnd(reg: Registry, s0: CodecState, done: seq<Package>, s: CodecState, res: NextResult, s1: CodecState)
    requires DrainsVia(reg, s0, done, s) && Step(reg, s) == (res, s1) && !res.Yield?
    ensures Drain(reg, s0) == (done, s1, if res.Stop? then Pass else Fail(res.error))
  {
    DrainIteratesStep(reg, s);
    assert done + [] == done;
  }

  /** The iterator returns every queued real-time package, in order, before anything from the buffer. */
  lemma {:induction false} DrainRtFirst(reg: Registry, s: CodecState)
    ensures var d := Drain(reg, s.(rt := []));
      Drain(reg, s) == (s.rt + d.0, d.1, d.2)
    decreases |s.rt|, 1
  {
    if s.rt != [] {
      DrainRtPop(reg, s);
    } else {
      assert s.(rt := []) == s;
      assert s.rt + Drain(reg, s).0 == Drain(reg, s).0;
    }
  }

  /** The inductive step of `DrainRtFirst`: the first queued package, then the rest of the queue. */
  lemma {:induction false} DrainRtPop(reg: Registry, s: CodecState)
    requires s.rt != []
    ensures var d := Drain(reg, s.(rt := []));
      Drain(reg, s) == (s.rt + d.0, d.1, d.2)
    decreases |s.rt|, 0
  {
    var d := Drain(reg, s.(rt := []));
    var s1 := s.(rt := s.rt[1..]);
    var d1 := Drain(reg, s1);
    assert Drain(reg, s) == ([s.rt[0]] + d1.0, d1.1, d1.2);
    assert s1.(rt := []) == s.(rt := []);
    DrainRtFirst(reg, s1);
    assert d1 == (s1.rt + d.0, d.1, d.2);
    ConsTail(s.rt, d.0);
  }

  /** The state with `b` appended to its buffer. */
  function Extend(s: CodecState, b: seq<bv8>): CodecState
  {
    s.(buffer := s.buffer + b)
  }

  /** Appending the chunks of a stream one after the other appends the whole stream. */
  lemma ExtendFlatten(s: CodecState, chunks: seq<seq<bv8>>)
    requires chunks != []
    ensures Extend(s, Flatten(chunks)) == Extend(Extend(s, chunks[0]), Flatten(chunks[1..]))
  {
    assert s.buffer + Flatten(chunks) == (s.buffer + chunks[0]) + Flatten(chunks[1..]);
  }

  /**
   * With no source attached, one pass of the retry loop only looks at bytes already buffered: more bytes
   * behind them change nothing but the buffer's end, except that a stop is reconsidered with the new bytes.
   */
  lemma ScanOnceExtend(reg: Registry, s: CodecState, b: seq<bv8>)
    requires s.file.None?
    ensures var (a, s1) := ScanOnce(reg, s);
      if a == Done(Stop) then
        s1.buffer == s.buffer && ScanOnce(reg, Extend(s, b)) == ScanOnce(reg, Extend(s1, b))
      else
        ScanOnce(reg, Extend(s, b)) == (a, Extend(s1, b))
  {
    var x := s.buffer + b;
    FillIsIdle(s, HEADER_SIZE);
    FillIsIdle(Extend(s, b), HEADER_SIZE);
    if |s.buffer| >= HEADER_SIZE {
      assert x[..HEADER_SIZE] == s.buffer[..HEADER_SIZE];
      assert x[1..] == s.buffer[1..] + b;
      var h := reg.headerOf(s.buffer[..HEADER_SIZE]);
      if s.waitAck && (h.startByte != START_BYTE || h.header != reg.headers.ackStopStreamingAndClearBuffer) {
      } else if !s.waitAck && h.startByte != START_BYTE {
      } else {
        ScanPayloadExtend(reg, s.(waitAck := false), h, b);
        assert Extend(s, b).(waitAck := false) == Extend(s.(waitAck := false), b);
        var (a, s1) := ScanPayload(reg, s.(waitAck := false), h);
        if a == Done(Stop) {
          assert s1 == s.(waitAck := false);
          assert Extend(s1, b).waitAck == false;
        }
      }
    }
  }

  /** `ScanOnceExtend` for the payload stage. */
  lemma ScanPayloadExtend(reg: Registry, s: CodecState, h: FrameHeader, b: seq<bv8>)
    requires s.file.None? && |s.buffer| >= HEADER_SIZE
    ensures var (a, s1) := ScanPayload(reg, s, h);
      if a == Done(Stop) then s1 == s
      else ScanPayload(reg, Extend(s, b), h) == (a, Extend(s1, b))
  {
    var n := HEADER_SIZE + h.payloadSize;
    FillIsIdle(s, n);
    FillIsIdle(Extend(s, b), n);
    if |s.buffer| >= n {
      ScanFilledShift(reg, s, h, b, None);
    }
  }

  /**
   * Once a whole frame is buffered, bytes behind it and the attached source play no part: the pass
   * ends the same way, and the extra bytes are still there behind whatever it leaves.
   */
  lemma ScanFilledShift(reg: Registry, s: CodecState, h: FrameHeader, b: seq<bv8>, file: Option<seq<bv8>>)
    requires |s.buffer| >= HEADER_SIZE + h.payloadSize
    ensures var (a, s1) := ScanFilled(reg, s, h);
      ScanFilled(reg, s.(buffer := s.buffer + b, file := file), h) == (a, s1.(buffer := s1.buffer + b, file := file))
  {
    var n := HEADER_SIZE + h.payloadSize;
    var x := s.buffer + b;
    assert x[CRC_FROM..n] == s.buffer[CRC_FROM..n];
    assert x[HEADER_SIZE..n] == s.buffer[HEADER_SIZE..n];
    assert x[1..] == s.buffer[1..] + b;
    assert x[n..] == s.buffer[n..] + b;
  }

  /** `ScanOnceExtend` for a whole iterator call on the main stream. */
  lemma {:induction false} ScanFrameExtend(reg: Registry, s: CodecState, b: seq<bv8>)
    requires s.file.None?
    ensures var (res, s1) := ScanFrame(reg, s);
      if res == Stop then ScanFrame(reg, Extend(s, b)) == ScanFrame(reg, Extend(s1, b))
      else ScanFrame(reg, Extend(s, b)) == (res, Extend(s1, b))
    decreases s.Pending()
  {
    var (a, s1) := ScanOnce(reg, s);
    ScanOnceExtend(reg, s, b);
    if a == Retry {
      ScanFrameExtend(reg, s1, b);
    }
  }

  /**
   * Bytes that arrive after a drain are parsed as if they had been there all along: draining, feeding `b`
   * and draining again yields what draining once over both yields; a drain that failed fails the same way.
   */
  lemma {:induction false} DrainExtend(reg: Registry, s: CodecState, b: seq<bv8>)
    requires s.file.None?
    ensures var (ps, s1, o) := Drain(reg, s);
      var (qs, s2, o2) := Drain(reg, Extend(s1, b));
      Drain(reg, Extend(s, b)) == if o.Pass? then (ps + qs, s2, o2) else (ps, Extend(s1, b), o)
    decreases Measure(s), 1
  {
    if s.rt != [] {
      var t := s.(rt := s.rt[1..]);
      assert Extend(s, b).(rt := s.rt[1..]) == Extend(t, b);
      DrainExtend(reg, t, b);
      var (ps, s1, o) := Drain(reg, t);
      var (qs, s2, o2) := Drain(reg, Extend(s1, b));
      ConsAssoc(s.rt[0], ps, qs);
    } else {
      DrainMainExtend(reg, s, b);
    }
  }

  /** `DrainExtend` once the real-time queue is empty. */
  lemma {:induction false} DrainMainExtend(reg: Registry, s: CodecState, b: seq<bv8>)
    requires s.file.None? && s.rt == []
    ensures var (ps, s1, o) := DrainMain(reg, s);
      var (qs, s2, o2) := Drain(reg, Extend(s1, b));
      DrainMain(reg, Extend(s, b)) == if o.Pass? then (ps + qs, s2, o2) else (ps, Extend(s1, b), o)
    decreases Measure(s), 0
  {
    var (res, t) := ScanFrame(reg, s);
    match res
    case Yield(p) =>
      ExtendAfterYield(reg, s, b);
      DrainExtend(reg, t, b);
      var (ps, s1, o) := Drain(reg, t);
      var (qs, s2, o2) := Drain(reg, Extend(s1, b));
      ConsAssoc(p, ps, qs);
    case Stop =>
      ExtendAfterStop(reg, s, b);
      var (qs, s2, o2) := Drain(reg, Extend(t, b));
      assert [] + qs == qs;
    case Raise(e) =>
      ExtendAfterRaise(reg, s, b);
  }

  /** A main stream that yields a package yields it again once extended, and goes on from the extended rest. */
  lemma ExtendAfterYield(reg: Registry, s: CodecState, b: seq<bv8>)
    requires s.file.None? && s.rt == [] && ScanFrame(reg, s).0.Yield?
    ensures var (res, t) := ScanFrame(reg, s);
      var d := Drain(reg, t);
      var e := Drain(reg, Extend(t, b));
      DrainMain(reg, s) == ([res.p] + d.0, d.1, d.2) && DrainMain(reg, Extend(s, b)) == ([res.p] + e.0, e.1, e.2)
  {
    ScanFrameExtend(reg, s, b);
    var (res, t) := ScanFrame(reg, s);
    assert ScanFrame(reg, Extend(s, b)) == (Yield(res.p), Extend(t, b));
  }

  /** A main stream that fails fails the same way once extended, keeping the extension buffered. */
  lemma ExtendAfterRaise(reg: Registry, s: CodecState, b: seq<bv8>)
    requires s.file.None? && s.rt == [] && ScanFrame(reg, s).0.Raise?
    ensures var (res, t) := ScanFrame(reg, s);
      DrainMain(reg, s) == ([], t, Fail(res.error)) && DrainMain(reg, Extend(s, b)) == ([], Extend(t, b), Fail(res.error))
  {
    ScanFrameExtend(reg, s, b);
  }

  /** A main stream that stops for want of bytes goes on, once extended, as the drain of the extended rest. */
  lemma ExtendAfterStop(reg: Registry, s: CodecState, b: seq<bv8>)
    requires s.file.None? && s.rt == [] && ScanFrame(reg, s).0.Stop?
    ensures var t := ScanFrame(reg, s).1;
      DrainMain(reg, s) == ([], t, Pass) && DrainMain(reg, Extend(s, b)) == Drain(reg, Extend(t, b))
  {
    ScanFrameExtend(reg, s, b);
    var t := ScanFrame(reg, s).1;
    assert ScanFrame(reg, Extend(s, b)) == ScanFrame(reg, Extend(t, b));
    assert DrainMain(reg, Extend(s, b)) == DrainMain(reg, Extend(t, b));
  }

  /**
   * The device's pattern: each chunk is fed and the iterator drained before the next chunk arrives;
   * the first failing drain ends the run.
   */
  function FeedAndDrain(reg: Registry, s: CodecState, chunks: seq<seq<bv8>>): (seq<Package>, CodecState, Outcome<ParseError>)
    decreases |chunks|
  {
    if chunks == [] then ([], s, Pass)
    else
      var (ps, s1, o) := Drain(reg, Extend(s, chunks[0]));
      if o.Fail? then (ps, s1, o)
      else
        var (qs, s2, o2) := FeedAndDrain(reg, s1, chunks[1..]);
        (ps + qs, s2, o2)
  }

  /** Reading from a source that is used up, or when enough bytes are buffered, changes nothing. */
  lemma FillIsIdle(s: CodecState, n: nat)
    requires s.FileRest() == [] || |s.buffer| >= n
    ensures Fill(s, n) == s
  {
    if s.file.Some? && |s.buffer| < n {
      assert s.buffer + s.file.value[..0] == s.buffer;
      assert s.file.value[0..] == s.file.value;
    }
  }

  /** A stop is stable: once the main stream has stopped, looking again stops at once and changes nothing. */
  lemma {:induction false} StopIsStable(reg: Registry, s: CodecState)
    requires ScanFrame(reg, s).0 == Stop
    ensures var s1 := ScanFrame(reg, s).1; ScanFrame(reg, s1) == (Stop, s1)
    decreases s.Pending()
  {
    var (a, s1) := ScanOnce(reg, s);
    if a == Retry {
      StopIsStable(reg, s1);
    } else {
      OnceStopIsStable(reg, s);
    }
  }

  /** `StopIsStable` for one pass. */
  lemma OnceStopIsStable(reg: Registry, s: CodecState)
    requires ScanOnce(reg, s).0 == Done(Stop)
    ensures var s1 := ScanOnce(reg, s).1; ScanOnce(reg, s1) == (Done(Stop), s1)
  {
    var t := Fill(s, HEADER_SIZE);
    if |t.buffer| < HEADER_SIZE {
      FillIsIdle(t, HEADER_SIZE);
    } else {
      var h := reg.headerOf(t.buffer[..HEADER_SIZE]);
      PayloadStopIsStable(reg, t.(waitAck := false), h);
    }
  }

  /** `StopIsStable` for the payload stage: the same header is accepted again and still lacks its payload. */
  lemma PayloadStopIsStable(reg: Registry, s: CodecState, h: FrameHeader)
    requires |s.buffer| >= HEADER_SIZE && !s.waitAck && h.startByte == START_BYTE
    requires h == reg.headerOf(s.buffer[..HEADER_SIZE])
    requires ScanPayload(reg, s, h).0 == Done(Stop)
    ensures var s1 := ScanPayload(reg, s, h).1; ScanOnce(reg, s1) == (Done(Stop), s1)
  {
    var n := HEADER_SIZE + h.payloadSize;
    var s1 := Fill(s, n);
    assert s1.buffer[..HEADER_SIZE] == s.buffer[..HEADER_SIZE];
    FillIsIdle(s1, HEADER_SIZE);
    FillIsIdle(s1, n);
    assert s1.(waitAck := false) == s1;
  }

  /** Draining is idempotent: after a drain that passes, draining again yields nothing and changes nothing. */
  lemma {:induction false} DrainRests(reg: Registry, s: CodecState)
    requires Drain(reg, s).2.Pass?
    ensures var s1 := Drain(reg, s).1; Drain(reg, s1) == ([], s1, Pass)
    decreases Measure(s)
  {
    if s.rt != [] {
      DrainRests(reg, s.(rt := s.rt[1..]));
    } else {
      var (res, s1) := ScanFrame(reg, s);
      if res.Yield? {
        DrainRests(reg, s1);
      } else {
        StopIsStable(reg, s);
      }
    }
  }

  /**
   * How a byte stream is cut into chunks does not matter: starting at rest and with no source attached,
   * feeding and draining chunk by chunk returns the packages, and ends in the outcome, of one drain over
   * all the bytes; when every drain passes, the final state is the same too.
   */
  lemma {:induction false} ChunkingInvariant(reg: Registry, s: CodecState, chunks: seq<seq<bv8>>)
    requires s.file.None? && Drain(reg, s) == ([], s, Pass)
    ensures var d := Drain(reg, Extend(s, Flatten(chunks)));
      var r := FeedAndDrain(reg, s, chunks);
      r.0 == d.0 && r.2 == d.2 && (r.2.Pass? ==> r.1 == d.1)
    decreases |chunks|
  {
    if chunks == [] {
      assert Extend(s, []) == s;
    } else {
      var s0 := Extend(s, chunks[0]);
      var (ps, s1, o) := Drain(reg, s0);
      DrainExtend(reg, s0, Flatten(chunks[1..]));
      ExtendFlatten(s, chunks);
      if o.Pass? {
        DrainRests(reg, s0);
        ChunkingInvariant(reg, s1, chunks[1..]);
      }
    }
  }

  /**
   * Where the bytes come from does not matter: one pass over a state with an attached source behaves as
   * the same pass over the state whose buffer already holds the whole rest of the source.
   */
  lemma ScanOnceFlat(reg: Registry, s: CodecState)
    ensures var (a, s1) := ScanOnce(reg, s);
      ScanOnce(reg, Flat(s)) == (a, Flat(s1))
  {
    var t := Fill(s, HEADER_SIZE);
    var f := Flat(s);
    assert Fill(f, HEADER_SIZE) == f;
    assert Flat(t) == f;
    if |t.buffer| >= HEADER_SIZE {
      ScanHeaderFlat(reg, t);
    }
  }

  /** `ScanOnceFlat` for the header stage. */
  lemma ScanHeaderFlat(reg: Registry, s: CodecState)
    requires |s.buffer| >= HEADER_SIZE
    ensures var (a, s1) := ScanHeader(reg, s);
      ScanHeader(reg, Flat(s)) == (a, Flat(s1))
  {
    var all := s.buffer + s.FileRest();
    assert all[..HEADER_SIZE] == s.buffer[..HEADER_SIZE];
    assert all[1..] == s.buffer[1..] + s.FileRest();
    var h := reg.headerOf(s.buffer[..HEADER_SIZE]);
    ScanPayloadFlat(reg, s.(waitAck := false), h);
    assert Flat(s.(waitAck := false)) == Flat(s).(waitAck := false);
  }

  /** `ScanOnceFlat` for the payload stage. */
  lemma ScanPayloadFlat(reg: Registry, s: CodecState, h: FrameHeader)
    requires |s.buffer| >= HEADER_SIZE
    ensures var (a, s1) := ScanPayload(reg, s, h);
      ScanPayload(reg, Flat(s), h) == (a, Flat(s1))
  {
    var n := HEADER_SIZE + h.payloadSize;
    var u := Fill(s, n);
    var f := Flat(s);
    assert Fill(f, n) == f;
    assert Flat(u) == f;
    if |u.buffer| >= n {
      ScanFilledShift(reg, u, h, u.FileRest(), None);
    }
  }

  /** `ScanOnceFlat` for a whole iterator call on the main stream. */
  lemma {:induction false} ScanFrameFlat(reg: Registry, s: CodecState)
    ensures var (res, s1) := ScanFrame(reg, s);
      ScanFrame(reg, Flat(s)) == (res, Flat(s1))
    decreases s.Pending()
  {
    var (a, s1) := ScanOnce(reg, s);
    ScanOnceFlat(reg, s);
    if a == Retry {
      ScanFrameFlat(reg, s1);
    }
  }

  /**
   * Reading an attached source on demand yields the same packages and outcome as feeding its whole
   * content first, and leaves the same bytes unparsed.
   */
  lemma {:induction false} DrainFlat(reg: Registry, s: CodecState)
    ensures var (ps, s1, o) := Drain(reg, s);
      Drain(reg, Flat(s)) == (ps, Flat(s1), o)
    decreases Measure(s), 1
  {
    if s.rt != [] {
      var t := s.(rt := s.rt[1..]);
      assert Flat(s).(rt := s.rt[1..]) == Flat(t);
      DrainFlat(reg, t);
    } else {
      DrainMainFlat(reg, s);
    }
  }

  /** `DrainFlat` once the real-time queue is empty. */
  lemma {:induction false} DrainMainFlat(reg: Registry, s: CodecState)
    requires s.rt == []
    ensures var (ps, s1, o) := DrainMain(reg, s);
      DrainMain(reg, Flat(s)) == (ps, Flat(s1), o)
    decreases Measure(s), 0
  {
    ScanFrameFlat(reg, s);
    var (res, t) := ScanFrame(reg, s);
    if res.Yield? {
      DrainFlat(reg, t);
    }
  }
}
