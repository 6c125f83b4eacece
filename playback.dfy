/**
 * `FilePlaybackDevice`: a session that replays a recording. Its unpacker reads the recording on demand
 * and does not resynchronise on garbage; `poll` is the unpacker's iterator step, with no queue between
 * them, and `connect`/`disconnect` only change and report the state.
 */
module Playback {
  import opened Common
  import opened Packages
  import opened Codec
  import opened CodecProperties
  import opened Events

  /** What `poll` comes back with: the next package, the end of the recording, or the parse error raised. */
  datatype Played = Played(p: Package) | Exhausted | Failed(error: ParseError)

  /** `poll` passes the iterator's result on: a stop becomes the end of iteration, an error propagates. */
  function PlayedOf(r: NextResult): Played
  {
    match r
    case Yield(p) => Played(p)
    case Stop => Exhausted
    case Raise(e) => Failed(e)
  }

  /** The unpacker state of a playback session over `recording` before anything is read. */
  function Opened(recording: seq<bv8>): (s: CodecState)
    ensures s.Pending() == |recording| && s.rt == []
  {
    CodecState([], [], false, false, Some(recording))
  }

  class PlaybackDevice {
    const reg: Registry
    const unpacker: Unpacker
    var state: DeviceState
    var stateListeners: set<Listener>
    /** Every listener call made so far, in order. */
    var log: seq<Delivery>

    /** A session over `recording`, connected from the start. */
    constructor (reg: Registry, recording: seq<bv8>)
      ensures this.reg == reg && unpacker.reg == reg && fresh(unpacker)
      ensures unpacker.State() == Opened(recording)
      ensures state == Connected && stateListeners == {} && log == []
    {
      this.reg := reg;
      unpacker := new Unpacker(reg, Some(recording), false);
      state := Connected;
      stateListeners := {};
      log := [];
    }

    method AddStateListener(l: Listener)
      modifies this
      ensures stateListeners == old(stateListeners) + {l}
      ensures state == old(state) && log == old(log)
    {
      stateListeners := stateListeners + {l};
    }

    /**
     * Unregisters a listener. `registered` is false for one that is not registered, where the source
     * raises `KeyError`; nothing changes then.
     */
    method RemoveStateListener(l: Listener) returns (registered: bool)
      modifies this
      ensures registered <==> l in old(stateListeners)
      ensures stateListeners == old(stateListeners) - {l}
      ensures state == old(state) && log == old(log)
    {
      registered := l in stateListeners;
      if registered {
        stateListeners := stateListeners - {l};
      }
    }

    /** `connect`: the state becomes connected and is reported; nothing is queued or read. */
    method Connect() returns (ghost calls: seq<Delivery>)
      modifies this
      ensures state == Connected && stateListeners == old(stateListeners)
      ensures log == old(log) + calls && Delivers(calls, stateListeners, [StateChanged(Connected)])
    {
      state := Connected;
      var made := CallEach(stateListeners, StateChanged(Connected));
      log := log + made;
      calls := made;
    }

    /** `disconnect`: the state becomes disconnected and is reported, even when it already was. */
    method Disconnect() returns (ghost calls: seq<Delivery>)
      modifies this
      ensures state == Disconnected && stateListeners == old(stateListeners)
      ensures log == old(log) + calls && Delivers(calls, stateListeners, [StateChanged(Disconnected)])
    {
      state := Disconnected;
      var made := CallEach(stateListeners, StateChanged(Disconnected));
      log := log + made;
      calls := made;
    }

    /** `poll`: one step of the unpacker's iterator over the recording. */
    method Poll() returns (r: Played)
      requires unpacker.reg == reg
      modifies unpacker
      ensures var (res, s1) := Step(reg, old(unpacker.State()));
        r == PlayedOf(res) && unpacker.State() == s1
      ensures r.Played? ==> Measure(unpacker.State()) < Measure(old(unpacker.State()))
    {
      var res := unpacker.Next();
      r := PlayedOf(res);
    }

    /** `apoll`: `poll`, where the end of the recording ends the asynchronous iteration instead. */
    method APoll() returns (r: Played)
      requires unpacker.reg == reg
      modifies unpacker
      ensures var (res, s1) := Step(reg, old(unpacker.State()));
        r == PlayedOf(res) && unpacker.State() == s1
    {
      r := Poll();
    }
  }

  /**
   * Replaying a recording that is a run of well-formed frames followed by an incomplete tail: polling
   * until the end returns exactly the frames' packages in recording order, then ends without an error,
   * with only the tail left unparsed.
   */
  lemma PlaysRecording(reg: Registry, fs: seq<seq<bv8>>, ps: seq<Package>, tail: seq<bv8>)
    requires |fs| == |ps| && forall i | 0 <= i < |fs| :: IsFrame(reg, fs[i], ps[i])
    requires Incomplete(reg, tail)
    ensures var (played, s1, o) := Drain(reg, Opened(Flatten(fs) + tail));
      played == ps && o == Pass && Flat(s1).buffer == tail
  {
    var s := Opened(Flatten(fs) + tail);
    DrainFlat(reg, s);
    assert Flat(s).buffer == Flatten(fs) + tail;
    DrainFrames(reg, Flat(s), fs, ps, tail);
  }
}
