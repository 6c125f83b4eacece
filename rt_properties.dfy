/**
 * Real-time extraction over well-formed input and its rejections: which frames at the head of a BLE
 * chunk are accepted, and what extraction returns for a chunk that announces and carries such frames.
 */
module RtProperties {
  import opened Common
  import opened Packages
  import opened Codec
  import opened CodecProperties

  /**
   * `f` is exactly one real-time frame that extraction accepts: start byte 2, as long as its header
   * declares, the checksum matches, the command is registered and the payload has the class's size,
   * whether or not the class is variable-size.
   */
  predicate WellFormedRt(reg: Registry, f: seq<bv8>)
  {
    |f| >= HEADER_SIZE &&
    var h := HeaderAt(reg, f);
    h.startByte == START_BYTE && |f| == HEADER_SIZE + h.payloadSize &&
    reg.checksum(f[CRC_FROM..]) == h.crc32 &&
    h.header in reg.packages &&
    h.payloadSize == reg.packages[h.header].size
  }

  /** `f` is a real-time frame that extraction accepts and `p` the package it carries. */
  predicate IsRtFrame(reg: Registry, f: seq<bv8>, p: Package)
  {
    WellFormedRt(reg, f) &&
    var h := HeaderAt(reg, f);
    p == Decode(reg, h.header, reg.packages[h.header], f[HEADER_SIZE..])
  }

  /** `fs` is a run of real-time frames that extraction accepts, carrying `ps` one for one. */
  predicate RtFrameRun(reg: Registry, fs: seq<seq<bv8>>, ps: seq<Package>)
    decreases |fs|
  {
    |fs| == |ps| && (fs != [] ==> IsRtFrame(reg, fs[0], ps[0]) && RtFrameRun(reg, fs[1..], ps[1..]))
  }

  /** Every package of a run, with the chunk's receive timestamp applied as real-time extraction does. */
  function RtStampAll(ps: seq<Package>, ts: Option<int>): (r: seq<Package>)
    ensures |r| == |ps|
  {
    if ps == [] then [] else [RtStamp(ps[0], ts)] + RtStampAll(ps[1..], ts)
  }

  /**
   * The frame at `pos` is accepted exactly when the bytes its header spans are there and form a
   * well-formed real-time frame; it then yields that frame's package and the position right after it.
   */
  lemma RtFrameIff(reg: Registry, data: seq<bv8>, pos: nat, ts: Option<int>)
    requires pos <= |data|
    ensures RtFrame(reg, data, pos, ts).Success? <==>
      pos + HEADER_SIZE <= |data| &&
      var n := HEADER_SIZE + HeaderAt(reg, data[pos..]).payloadSize;
      pos + n <= |data| && WellFormedRt(reg, data[pos..pos + n])
    ensures RtFrame(reg, data, pos, ts).Success? ==>
      var n := HEADER_SIZE + HeaderAt(reg, data[pos..]).payloadSize;
      exists p :: IsRtFrame(reg, data[pos..pos + n], p) && RtFrame(reg, data, pos, ts) == Success((RtStamp(p, ts), pos + n))
  {
    if pos + HEADER_SIZE <= |data| {
      var n := HEADER_SIZE + HeaderAt(reg, data[pos..]).payloadSize;
      assert data[pos..][..HEADER_SIZE] == data[pos..pos + HEADER_SIZE];
      if pos + n <= |data| {
        var f := data[pos..pos + n];
        assert f[..HEADER_SIZE] == data[pos..pos + HEADER_SIZE];
        assert f[CRC_FROM..] == data[pos + CRC_FROM..pos + n];
        assert f[HEADER_SIZE..] == data[pos + HEADER_SIZE..pos + n];
        if RtFrame(reg, data, pos, ts).Success? {
          var h := HeaderAt(reg, f);
          var p := Decode(reg, h.header, reg.packages[h.header], f[HEADER_SIZE..]);
          assert IsRtFrame(reg, f, p);
        }
      }
    }
  }

  /** A well-formed real-time frame found at `pos` is decoded and stepped over. */
  lemma RtFrameDecodes(reg: Registry, data: seq<bv8>, pos: nat, f: seq<bv8>, p: Package, ts: Option<int>)
    requires IsRtFrame(reg, f, p) && pos + |f| <= |data| && data[pos..pos + |f|] == f
    ensures RtFrame(reg, data, pos, ts) == Success((RtStamp(p, ts), pos + |f|))
  {
    assert data[pos..pos + HEADER_SIZE] == f[..HEADER_SIZE];
    assert data[pos + CRC_FROM..pos + |f|] == f[CRC_FROM..];
    assert data[pos + HEADER_SIZE..pos + |f|] == f[HEADER_SIZE..];
  }

  /** The byte strings `fs` lie one after the other in `data`, the first at `pos`. */
  ghost predicate LaidOut(data: seq<bv8>, pos: nat, fs: seq<seq<bv8>>)
    decreases |fs|
  {
    fs == [] ||
    (pos + |fs[0]| <= |data| && data[pos..pos + |fs[0]|] == fs[0] && LaidOut(data, pos + |fs[0]|, fs[1..]))
  }

  /**
   * From `pos` on, `data` holds frames that `RtFrame` accepts one after the other, the `i`-th yielding
   * `qs[i]` and spanning `lens[i]` bytes.
   */
  ghost predicate DecodesAt(reg: Registry, data: seq<bv8>, pos: nat, qs: seq<Package>, lens: seq<nat>, ts: Option<int>)
    decreases |qs|
  {
    |qs| == |lens| && pos <= |data| &&
    (qs != [] ==>
      pos + lens[0] <= |data| && RtFrame(reg, data, pos, ts) == Success((qs[0], pos + lens[0])) &&
      DecodesAt(reg, data, pos + lens[0], qs[1..], lens[1..], ts))
  }

  function Sum(lens: seq<nat>): nat
  {
    if lens == [] then 0 else lens[0] + Sum(lens[1..])
  }

  /** The length of each part of a run. */
  function Lengths(fs: seq<seq<bv8>>): (r: seq<nat>)
    ensures |r| == |fs|
  {
    if fs == [] then [] else [|fs[0]|] + Lengths(fs[1..])
  }

  /** `count` frames accepted one after the other are decoded, in order, up to the end of the last. */
  lemma {:induction false} RtFramesChain(reg: Registry, data: seq<bv8>, pos: nat, count: nat, qs: seq<Package>,
                                         lens: seq<nat>, ts: Option<int>)
    requires count == |qs| && DecodesAt(reg, data, pos, qs, lens, ts)
    ensures RtFrames(reg, data, pos, count, ts) == (qs, Success(pos + Sum(lens)))
    decreases count
  {
    if count != 0 {
      var next := pos + lens[0];
      var end := next + Sum(lens[1..]);
      RtFramesChain(reg, data, next, count - 1, qs[1..], lens[1..], ts);
      RtFramesAfter(reg, data, pos, count, ts, qs[0], next, qs[1..], Success(end));
      assert qs == [qs[0]] + qs[1..];
      assert pos + Sum(lens) == end;
    } else {
      assert RtFrames(reg, data, pos, count, ts) == ([], Success(pos));
    }
  }

  /** How `RtFrames` goes on after a first frame that is accepted. */
  lemma RtFramesAfter(reg: Registry, data: seq<bv8>, pos: nat, count: nat, ts: Option<int>, p: Package, end: nat,
                      more: seq<Package>, last: Result<nat, ParseError>)
    requires 0 < count && pos <= end <= |data| && RtFrame(reg, data, pos, ts) == Success((p, end))
    requires RtFrames(reg, data, end, count - 1, ts) == (more, last)
    ensures RtFrames(reg, data, pos, count, ts) == ([p] + more, last)
  {
    RtFramesStep(reg, data, pos, count, ts);
  }

  /** Well-formed real-time frames laid out from `pos` are accepted one after the other. */
  lemma {:induction false} RunDecodesAt(reg: Registry, data: seq<bv8>, pos: nat, fs: seq<seq<bv8>>, ps: seq<Package>,
                                        ts: Option<int>)
    requires RtFrameRun(reg, fs, ps) && LaidOut(data, pos, fs) && pos <= |data|
    ensures DecodesAt(reg, data, pos, RtStampAll(ps, ts), Lengths(fs), ts)
    ensures Sum(Lengths(fs)) == |Flatten(fs)|
    decreases |fs|
  {
    if fs != [] {
      RtFrameDecodes(reg, data, pos, fs[0], ps[0], ts);
      RunDecodesAt(reg, data, pos + |fs[0]|, fs[1..], ps[1..], ts);
      assert RtStampAll(ps, ts)[1..] == RtStampAll(ps[1..], ts);
      assert Lengths(fs)[1..] == Lengths(fs[1..]);
    }
  }

  /** A run flattened into `data` after a prefix lies there part after part. */
  lemma {:induction false} FlattenLaidOut(prefix: seq<bv8>, fs: seq<seq<bv8>>, rest: seq<bv8>)
    ensures LaidOut(prefix + Flatten(fs) + rest, |prefix|, fs)
    decreases |fs|
  {
    if fs != [] {
      var data := prefix + Flatten(fs) + rest;
      var n := |fs[0]|;
      assert Flatten(fs) == fs[0] + Flatten(fs[1..]);
      assert data == (prefix + fs[0]) + Flatten(fs[1..]) + rest;
      FlattenLaidOut(prefix + fs[0], fs[1..], rest);
      assert data[|prefix|..|prefix| + n] == fs[0];
    }
  }

  /**
   * A BLE chunk whose first byte announces `|fs|` (at most three) real-time frames, followed by those
   * frames and then anything: extraction returns their packages in wire order, stamped, and exactly the
   * bytes after the last frame.
   */
  lemma ExtractRtFrames(reg: Registry, b: bv8, fs: seq<seq<bv8>>, ps: seq<Package>, rest: seq<bv8>, ts: Option<int>)
    requires 255 - b as int == |fs| == |ps| <= MAX_RT_PACKAGES
    requires forall i | 0 <= i < |fs| :: IsRtFrame(reg, fs[i], ps[i])
    ensures ExtractRt(reg, [b] + Flatten(fs) + rest, ts) == (RtStampAll(ps, ts), Success(rest))
  {
    var data := [b] + Flatten(fs) + rest;
    ChunkLayout(b, fs, rest);
    RtFrameRunOf(reg, fs, ps);
    ExtractRtRun(reg, data, fs, ps, ts);
  }

  /** Extraction over a chunk whose count byte is followed by a laid-out run of accepted frames. */
  lemma ExtractRtRun(reg: Registry, data: seq<bv8>, fs: seq<seq<bv8>>, ps: seq<Package>, ts: Option<int>)
    requires data != [] && 255 - data[0] as int == |fs| <= MAX_RT_PACKAGES
    requires RtFrameRun(reg, fs, ps) && LaidOut(data, 1, fs)
    ensures 1 + |Flatten(fs)| <= |data|
    ensures ExtractRt(reg, data, ts) == (RtStampAll(ps, ts), Success(data[1 + |Flatten(fs)|..]))
  {
    RunFrames(reg, data, fs, ps, ts);
    ExtractRtCounted(reg, data, ts, |fs|, RtStampAll(ps, ts), 1 + |Flatten(fs)|);
  }

  /** A laid-out run of accepted frames after the count byte decodes to the run's packages, stamped. */
  lemma RunFrames(reg: Registry, data: seq<bv8>, fs: seq<seq<bv8>>, ps: seq<Package>, ts: Option<int>)
    requires 1 <= |data| && RtFrameRun(reg, fs, ps) && LaidOut(data, 1, fs)
    ensures 1 + |Flatten(fs)| <= |data|
    ensures RtFrames(reg, data, 1, |fs|, ts) == (RtStampAll(ps, ts), Success(1 + |Flatten(fs)|))
  {
    var lens := Lengths(fs);
    var qs := RtStampAll(ps, ts);
    RunDecodesAt(reg, data, 1, fs, ps, ts);
    assert |qs| == |fs|;
    RtFramesChain(reg, data, 1, |fs|, qs, lens, ts);
    assert Sum(lens) == |Flatten(fs)|;
  }

  /** Where the count byte, the frames and the rest lie in a BLE chunk. */
  lemma ChunkLayout(b: bv8, fs: seq<seq<bv8>>, rest: seq<bv8>)
    ensures var data := [b] + Flatten(fs) + rest;
      data[0] == b && data[1 + |Flatten(fs)|..] == rest && LaidOut(data, 1, fs)
  {
    FlattenLaidOut([b], fs, rest);
    var data := [b] + Flatten(fs) + rest;
    assert data[1 + |Flatten(fs)|..] == rest;
  }

  /** Extraction once the frames the count byte announces are decoded. */
  lemma ExtractRtCounted(reg: Registry, data: seq<bv8>, ts: Option<int>, count: nat, ps: seq<Package>, end: nat)
    requires data != [] && count == 255 - data[0] as int && count <= MAX_RT_PACKAGES
    requires 1 <= end <= |data| && RtFrames(reg, data, 1, count, ts) == (ps, Success(end))
    ensures ExtractRt(reg, data, ts) == (ps, Success(data[end..]))
  {
  }

  /** Frames that are each accepted form an accepted run. */
  lemma {:induction false} RtFrameRunOf(reg: Registry, fs: seq<seq<bv8>>, ps: seq<Package>)
    requires |fs| == |ps| && forall i | 0 <= i < |fs| :: IsRtFrame(reg, fs[i], ps[i])
    ensures RtFrameRun(reg, fs, ps)
    decreases |fs|
  {
    if fs != [] {
      assert forall i | 0 <= i < |fs| - 1 :: fs[1..][i] == fs[i + 1] && ps[1..][i] == ps[i + 1];
      RtFrameRunOf(reg, fs[1..], ps[1..]);
    }
  }

  /** An announced count above three is rejected before any frame is read. */
  lemma ExtractRtTooMany(reg: Registry, data: seq<bv8>, ts: Option<int>)
    requires data != [] && 255 - data[0] as int > MAX_RT_PACKAGES
    ensures ExtractRt(reg, data, ts) == ([], Failure(TooManyRtPackages(255 - data[0] as int)))
  {
  }

  /** An empty chunk passes through untouched, with nothing extracted. */
  lemma ExtractRtEmpty(reg: Registry, ts: Option<int>)
    ensures ExtractRt(reg, [], ts) == ([], Success([]))
  {
  }
}
