/**
 * What the session's specification functions promise: the cache keeps the last status and device-info
 * packages and latches once one is seen, the clock backfill fills only an unset field, the
 * abort-streaming filter keeps exactly the non-data packages in order, and `sendAndAwaitAck` resolves
 * to the first package that matches.
 */
module SessionProperties {
  import opened Common
  import opened Packages
  import opened Codec
  import opened Session

  /** Whether `ps` holds a package of the kind that sets the status latch. */
  predicate HasStatus(ps: seq<Package>)
  {
    exists i :: 0 <= i < |ps| && ps[i].body.Status?
  }

  predicate HasDeviceInfo(ps: seq<Package>)
  {
    exists i :: 0 <= i < |ps| && ps[i].body.DeviceInfo?
  }

  /**
   * After a run of decoded packages each latch is set exactly when it was set before or the run holds
   * a package of its kind: latches are never cleared by decoding.
   */
  lemma {:induction false} ObserveAllLatches(c: Cache, ps: seq<Package>)
    ensures ObserveAll(c, ps).statusReceived <==> c.statusReceived || HasStatus(ps)
    ensures ObserveAll(c, ps).deviceInfoReceived <==> c.deviceInfoReceived || HasDeviceInfo(ps)
    decreases |ps|
  {
    if ps != [] {
      var init := ps[..|ps| - 1];
      ObserveAllLatches(c, init);
      if HasStatus(init) {
        var i :| 0 <= i < |init| && init[i].body.Status?;
        assert ps[i] == init[i];
      }
      if HasStatus(ps) && !ps[|ps| - 1].body.Status? {
        var i :| 0 <= i < |ps| && ps[i].body.Status?;
        assert init[i] == ps[i];
      }
      if HasDeviceInfo(init) {
        var i :| 0 <= i < |init| && init[i].body.DeviceInfo?;
        assert ps[i] == init[i];
      }
      if HasDeviceInfo(ps) && !ps[|ps| - 1].body.DeviceInfo? {
        var i :| 0 <= i < |ps| && ps[i].body.DeviceInfo?;
        assert init[i] == ps[i];
      }
    }
  }

  /**
   * The cached status is the last status package of the run; a run without one leaves the cached
   * status as it was.
   */
  lemma {:induction false} ObserveAllKeepsLastStatus(c: Cache, ps: seq<Package>)
    ensures (forall i :: 0 <= i < |ps| ==> !ps[i].body.Status?) ==> ObserveAll(c, ps).status == c.status
    ensures forall j :: 0 <= j < |ps| && ps[j].body.Status? && (forall k :: j < k < |ps| ==> !ps[k].body.Status?) ==>
      ObserveAll(c, ps).status == Some(ps[j])
    decreases |ps|
  {
    if ps != [] {
      var init := ps[..|ps| - 1];
      ObserveAllKeepsLastStatus(c, init);
      var last := ps[|ps| - 1];
      assert ObserveAll(c, ps) == Observe(ObserveAll(c, init), last);
      forall j | 0 <= j < |ps| && ps[j].body.Status? && (forall k :: j < k < |ps| ==> !ps[k].body.Status?)
        ensures ObserveAll(c, ps).status == Some(ps[j])
      {
        if j < |ps| - 1 {
          assert !last.body.Status?;
          assert init[j] == ps[j];
          assert forall k :: j < k < |init| ==> init[k] == ps[k];
        }
      }
      if forall i :: 0 <= i < |ps| ==> !ps[i].body.Status? {
        assert forall i :: 0 <= i < |init| ==> init[i] == ps[i];
      }
    }
  }

  /**
   * The cached device info is the last device-info package of the run and the device's name is built
   * from its serial number; a run without one leaves both as they were.
   */
  lemma {:induction false} ObserveAllKeepsLastDeviceInfo(c: Cache, ps: seq<Package>)
    ensures (forall i :: 0 <= i < |ps| ==> !ps[i].body.DeviceInfo?) ==>
      ObserveAll(c, ps).deviceInfo == c.deviceInfo && ObserveAll(c, ps).name == c.name
    ensures forall j :: 0 <= j < |ps| && ps[j].body.DeviceInfo? && (forall k :: j < k < |ps| ==> !ps[k].body.DeviceInfo?) ==>
      ObserveAll(c, ps).deviceInfo == Some(ps[j]) && ObserveAll(c, ps).name == "IMU_" + ps[j].body.serial
    decreases |ps|
  {
    if ps != [] {
      var init := ps[..|ps| - 1];
      ObserveAllKeepsLastDeviceInfo(c, init);
      var last := ps[|ps| - 1];
      assert ObserveAll(c, ps) == Observe(ObserveAll(c, init), last);
      forall j | 0 <= j < |ps| && ps[j].body.DeviceInfo? && (forall k :: j < k < |ps| ==> !ps[k].body.DeviceInfo?)
        ensures ObserveAll(c, ps).deviceInfo == Some(ps[j]) && ObserveAll(c, ps).name == "IMU_" + ps[j].body.serial
      {
        if j < |ps| - 1 {
          assert !last.body.DeviceInfo?;
          assert init[j] == ps[j];
          assert forall k :: j < k < |init| ==> init[k] == ps[k];
        }
      }
      if forall i :: 0 <= i < |ps| ==> !ps[i].body.DeviceInfo? {
        assert !last.body.DeviceInfo?;
        assert forall i :: 0 <= i < |init| ==> init[i] == ps[i];
      }
    }
  }

  /**
   * The clock backfill changes a package only by filling the host receive time of a clock round-trip
   * package whose field is still zero, and only when a receive time is known; filling twice is filling once.
   */
  lemma StampFillsOnlyUnset(p: Package, timestamp: Option<int>)
    ensures Stamp(p, timestamp).body.ClockRoundtrip? <==> p.body.ClockRoundtrip?
    ensures timestamp.None? ==> Stamp(p, timestamp) == p
    ensures p.body.ClockRoundtrip? && p.body.hostReceiveTimestamp != 0 ==> Stamp(p, timestamp) == p
    ensures p.body.ClockRoundtrip? && timestamp.Some? && p.body.hostReceiveTimestamp == 0 ==>
      Stamp(p, timestamp) == p.(body := p.body.(hostReceiveTimestamp := timestamp.value))
    ensures Stamp(Stamp(p, timestamp), timestamp) == Stamp(p, timestamp)
  {
  }

  /**
   * A real-time package, already stamped with the chunk's receive time by extraction, is left as it is
   * by the backfill `_feed` applies to every decoded package of the same chunk.
   */
  lemma StampAfterRtStamp(p: Package, timestamp: Option<int>)
    ensures Stamp(RtStamp(p, timestamp), timestamp) == RtStamp(p, timestamp)
  {
  }

  /** The abort-streaming filter keeps exactly the packages that are not data packages. */
  lemma {:induction false} NonDataMembers(ps: seq<Package>)
    ensures forall i :: 0 <= i < |NonData(ps)| ==> !IsDataPackage(NonData(ps)[i].name)
    ensures forall x :: x in NonData(ps) <==> x in ps && !IsDataPackage(x.name)
    decreases |ps|
  {
    if ps != [] {
      var init := ps[..|ps| - 1];
      NonDataMembers(init);
      assert ps == init + [ps[|ps| - 1]];
    }
  }

  /** The filter keeps order: filtering two stretches one after the other is filtering their concatenation. */
  lemma {:induction false} NonDataAppend(a: seq<Package>, b: seq<Package>)
    ensures NonData(a + b) == NonData(a) + NonData(b)
    decreases |b|
  {
    if b == [] {
      assert a + b == a;
    } else {
      var b' := b[..|b| - 1];
      assert (a + b)[..|a + b| - 1] == a + b';
      NonDataAppend(a, b');
    }
  }

  /** A run without data packages passes the filter whole; a run with one does not. */
  lemma NonDataKeepsAll(ps: seq<Package>)
    ensures NonData(ps) == ps <==> forall i :: 0 <= i < |ps| ==> !IsDataPackage(ps[i].name)
  {
    NonDataMembers(ps);
    if forall i :: 0 <= i < |ps| ==> !IsDataPackage(ps[i].name) {
      NonDataOfClean(ps);
    }
  }

  lemma {:induction false} NonDataOfClean(ps: seq<Package>)
    requires forall i :: 0 <= i < |ps| ==> !IsDataPackage(ps[i].name)
    ensures NonData(ps) == ps
    decreases |ps|
  {
    if ps != [] {
      var init := ps[..|ps| - 1];
      assert forall i :: 0 <= i < |init| ==> init[i] == ps[i];
      NonDataOfClean(init);
      assert init + [ps[|ps| - 1]] == ps;
    }
  }

  /**
   * `sendAndAwaitAck` waits on for as long as no package resolves it, and resolves to the first package
   * that does: later matches are ignored.
   */
  lemma {:induction false} FirstMatchIsFirst(ackName: string, sent: Package, ps: seq<Package>)
    ensures FirstMatch(ackName, sent, ps).None? <==> forall i :: 0 <= i < |ps| ==> !Resolves(ackName, sent, ps[i])
    ensures forall i :: 0 <= i < |ps| && Resolves(ackName, sent, ps[i]) && (forall j :: 0 <= j < i ==> !Resolves(ackName, sent, ps[j])) ==>
      FirstMatch(ackName, sent, ps) == Some(ps[i])
    decreases |ps|
  {
    if ps != [] {
      FirstMatchIsFirst(ackName, sent, ps[1..]);
      forall i | 0 <= i < |ps| && Resolves(ackName, sent, ps[i]) && (forall j :: 0 <= j < i ==> !Resolves(ackName, sent, ps[j]))
        ensures FirstMatch(ackName, sent, ps) == Some(ps[i])
      {
        if i > 0 {
          assert ps[1..][i - 1] == ps[i];
          assert forall j :: 0 <= j < i - 1 ==> ps[1..][j] == ps[j + 1];
        }
      }
      if !Resolves(ackName, sent, ps[0]) && FirstMatch(ackName, sent, ps).None? {
        assert forall i :: 1 <= i < |ps| ==> ps[i] == ps[1..][i - 1];
      }
    }
  }

  /**
   * The data classes the abort drops are the full and quaternion streams (any suffix) and the three burst and
   * byte-stream classes; the status, device-info, clock, error and stop-acknowledgement classes are kept.
   */
  lemma DataPackageNames(suffix: string)
    ensures IsDataPackage("DataFull" + suffix) && IsDataPackage("DataQuat" + suffix)
    ensures IsDataPackage("DataRawBurst") && IsDataPackage("DataAccZBurst") && IsDataPackage("DataFsBytes")
    ensures !IsDataPackage("DataStatus") && !IsDataPackage("DataDeviceInfo") && !IsDataPackage("DataClockRoundtrip")
    ensures !IsDataPackage("SensorError") && !IsDataPackage("AckStopStreamingAndClearBuffer")
  {
    // Each kept name differs from both "DataFull" and "DataQuat" within their first eight characters.
    assert "DataStatus"[4] == 'S' && "DataDeviceInfo"[4] == 'D' && "DataClockRoundtrip"[4] == 'C';
    assert "SensorError"[0] == 'S' && "AckStopStreamingAndClearBuffer"[0] == 'A';
  }
}
