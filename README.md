# capture2go device core, modelled in Dafny

capture2go is the Python host library for a family of IMU sensors that are reached over Bluetooth Low
Energy (BLE) or a USB serial port. This project models the library's core and proves properties of
the model:

- **The frame codec** (`Unpacker` in `capture2go/parsing.py`). Each frame is an 8-byte header followed by
  its payload. The header holds a start byte 2, a 16-bit command, the payload size and a CRC-32 over
  the frame from offset 6. The unpacker buffers bytes that are fed to it or read from an attached file.
  Its iterator returns one decoded package per call, stops when the data runs out, and handles bad
  frames in three ways:
  - it resynchronises one byte at a time while garbage is tolerated;
  - in the acknowledgement-wait mode it skips everything up to the stop-streaming acknowledgement;
  - otherwise it raises.

  Each BLE chunk starts with a count byte (255 minus the number of real-time frames) and up to three
  real-time frames. `extractRtPackages` takes these off the chunk and queues their packages ahead of
  the main stream.
- **The device session** (`AbstractDevice` in `capture2go/device.py`):
  - four listener sets;
  - the cache of the last status and device-info packages, with their two latches;
  - the receive queue with its connect and disconnect sentinels;
  - `_feed`, which extracts, notifies, decodes, caches, backfills the clock round-trip, notifies and queues;
  - `poll` and `apoll`;
  - `sendAndAwaitAck`;
  - `init`, which stops recording or aborts streaming and then sets the clock.
- **File playback** (`FilePlaybackDevice`). `poll` is the unpacker's iterator step over the recording.
- **The transports' connect/disconnect contract** (`capture2go/ble.py`, `capture2go/usb.py`). These say
  what each transport does to the session's state, its latches and its queue, and what it reports to
  the state listeners.

Modules:

| module | file | contents |
|---|---|---|
| `Common` | `common.dfy` | `Option`, `Result`, `Outcome`, `Flatten` and sequence lemmas |
| `Crc` | `crc.dfy` | CRC-32 as in ITU-T V.42 section 8.1.1.6.2, with its standard check value |
| `Packages` | `packages.dfy` | packages, package classes, frame headers, and the `Registry` that stands for the firmware's package module |
| `Codec` | `codec.dfy` | the `Unpacker` class, specified by pure functions over a `CodecState` snapshot |
| `CodecProperties` | `codec_properties.dfy` | frame rules, draining, chunking invariance, attached source versus fed bytes |
| `RtProperties` | `rt_properties.dfy` | real-time extraction over well-formed chunks and its rejections |
| `Events` | `events.dfy` | listeners, the call log, and what each listener hears |
| `Queue` | `queue.dfy` | queue entries, and what `poll` and `apoll` take |
| `Session` | `session.dfy` | the `Device` class and its specification functions |
| `SessionProperties` | `session_properties.dfy` | cache latches, the clock backfill, the abort filter, the acknowledgement match |
| `Playback` | `playback.dfy` | the `PlaybackDevice` class |

Each `Unpacker` method is proved against a specification function on the unpacker's state:
`(r, State()) == Step(reg, old(State()))`. The properties the source promises are proved about those
functions.

Listener sets are Python sets, which have no iteration order. Every listener call is therefore
recorded in a log, and the session's promises are stated per listener: `Heard(log, l)` is the sequence
of events listener `l` received, in order.

Awaiting an `asyncio` event or future is modelled as handling, in order, the arrivals the transport
hands over (`seq<Arrival>`). An arrival is a chunk of bytes with its receive time, or the loss of the
link. If the arrivals run out, the source would still be waiting. `init` then reports `Pending`, and
`sendAndAwaitAck` reports `TimedOut`.

## Model

| member | source | states |
|---|---|---|
| `Codec.Unpacker.constructor` | capture2go/parsing.py:34-39 | empty buffer and real-time queue, not in acknowledgement-wait mode, the garbage mode and the attached file as given |
| `Codec.Fill` | capture2go/parsing.py:171-175 | reading from the attached source only appends to the buffer, never loses or reorders a byte of buffer plus unread source, and stops short of `n` bytes only when the source is used up |
| `Codec.ScanOnce` | capture2go/parsing.py:123-169 | one pass of the retry loop never touches the real-time queue, never consumes more than is left, and strictly consumes when it retries or returns a package |
| `Codec.Step` | capture2go/parsing.py:119-169 | one iterator call never increases the work left and strictly lowers it when it returns a package; a stop leaves the real-time queue empty |
| `Codec.Drain` | capture2go/parsing.py:116-121 | iterating until the iterator stops or raises leaves the real-time queue empty when it stops, and never attaches a source |
| `Codec.RtStamp` | capture2go/parsing.py:108-109 | a clock round-trip package takes the chunk's receive time whatever it held before, keeps its other fields, command and class; every other package, and any package when no time is given, is unchanged |
| `Codec.RtFrame` | capture2go/parsing.py:84-111 | an accepted real-time frame lies wholly inside the chunk, header included |
| `Codec.RtFrames` | capture2go/parsing.py:84-112 | the frame loop yields exactly `count` packages and stays inside the chunk when every frame is accepted, and fewer when one is rejected |
| `Codec.ExtractRt` | capture2go/parsing.py:57-114 | what is returned is a suffix of the chunk; an accepted chunk gives as many packages as its count byte announces; an empty chunk or a count above three gives none |
| `Codec.Unpacker.Feed` | capture2go/parsing.py:41-48 | the bytes are appended to the buffer and nothing else changes |
| `Codec.Unpacker.Clear` | capture2go/parsing.py:51-55 | the buffer is emptied and nothing else changes |
| `Codec.Unpacker.DecodeRtFrame` | capture2go/parsing.py:84-111 | one real-time frame of a chunk is decoded exactly as `RtFrame` specifies |
| `Codec.Unpacker.QueueRtFrames` | capture2go/parsing.py:84-112 | the frame loop queues the packages `RtFrames` decodes behind those already queued, and ends where the frames end or with the first error |
| `Codec.Unpacker.ExtractRtPackages` | capture2go/parsing.py:57-114 | the real-time queue grows by the packages `ExtractRt` takes from the chunk, and the rest of the chunk (or the error) is returned |
| `Codec.Unpacker.EnsureAvailable` | capture2go/parsing.py:171-175 | reads only from the attached source, never shrinks the buffer, and reports success exactly when `n` bytes are buffered |
| `Codec.Unpacker.TryFrame` | capture2go/parsing.py:123-169 | one pass of the retry loop behaves as `ScanOnce` |
| `Codec.Unpacker.Next` | capture2go/parsing.py:119-169 | the iterator call behaves as `Step`: queued real-time packages first, then the next frame |
| `CodecProperties.FrameYields` | capture2go/parsing.py:161-169 | a well-formed frame at the front is returned and exactly its bytes are consumed, and both recovery modes end |
| `CodecProperties.IncompleteStops` | capture2go/parsing.py:171-175 | with no source attached, an incomplete frame stops the iterator without consuming a byte or changing any field |
| `CodecProperties.BadStartByteRule` | capture2go/parsing.py:136-141 | a bad start byte drops one byte while garbage is tolerated, and otherwise raises with nothing consumed |
| `CodecProperties.CrcMismatchRule` | capture2go/parsing.py:143-152 | a checksum mismatch drops one byte while garbage is tolerated, and otherwise raises with the computed and the received checksum |
| `CodecProperties.UnknownCommandSkipped` | capture2go/parsing.py:154-159 | a valid frame with an unregistered command is skipped whole, in every mode |
| `CodecProperties.SizeMismatchRaises` | capture2go/parsing.py:161-164 | a fixed-size class whose frame declares another size raises in every mode, with nothing consumed |
| `CodecProperties.SkipsToAck` | capture2go/parsing.py:127-135 | in acknowledgement-wait mode every byte before the acknowledgement frame is dropped; the acknowledgement is returned and the wait ends |
| `CodecProperties.DrainFrames` | capture2go/parsing.py:119-175 | draining a buffer of well-formed frames and an incomplete tail returns the frames' packages in order and leaves only the tail |
| `CodecProperties.DrainRtFirst` | capture2go/parsing.py:120-121 | every queued real-time package is returned, in order, before anything from the buffer |
| `CodecProperties.DrainExtend` | capture2go/parsing.py:41-48 | bytes fed after a drain are parsed as if they had been buffered all along |
| `CodecProperties.FillIsIdle` | capture2go/parsing.py:171-173 | reading from a used-up source, or when enough bytes are buffered, changes nothing |
| `CodecProperties.StopIsStable` | capture2go/parsing.py:171-175 | once the iterator has stopped, calling it again stops at once and changes nothing |
| `CodecProperties.DrainRests` | capture2go/parsing.py:119-175 | draining is idempotent: a second drain after one that passed yields nothing and changes nothing |
| `CodecProperties.ChunkingInvariant` | capture2go/parsing.py:41-48 | feeding and draining chunk by chunk gives the packages and outcome of one drain over all the bytes, and when every drain passes, the same final state |
| `CodecProperties.ScanOnceFlat` | capture2go/parsing.py:171-175 | one pass with an attached source behaves as the same pass over a buffer that already holds the rest of the source |
| `CodecProperties.DrainFlat` | capture2go/parsing.py:119-175 | a whole drain with an attached source returns what the drain over the pre-read bytes returns |
| `RtProperties.RtFrameIff` | capture2go/parsing.py:84-111 | a real-time frame is accepted exactly when its bytes are there and well formed, and then it yields its package and the next position |
| `RtProperties.RtFrameDecodes` | capture2go/parsing.py:84-112 | a well-formed real-time frame at a position is decoded and stepped over |
| `RtProperties.ExtractRtFrames` | capture2go/parsing.py:57-114 | a chunk whose count byte announces exactly the well-formed frames that follow gives their stamped packages in order, and returns the rest of the chunk |
| `RtProperties.ExtractRtTooMany` | capture2go/parsing.py:80-82 | a count above three is rejected before any frame is read |
| `RtProperties.ExtractRtEmpty` | capture2go/parsing.py:78-79 | an empty chunk passes through untouched |
| `Crc.UpdateAppend` | capture2go/parsing.py:144 | the CRC register can be run over a split input piece by piece |
| `Crc.CheckValue` | capture2go/parsing.py:144 | the checksum of the digits 1 to 9 is 0xCBF43926 |
| `Events.CallEach` | capture2go/device.py:353-354 | a loop over a listener set calls each listener exactly once with the event and calls no one else |
| `Events.HeardAppend` | capture2go/device.py:328-357 | a listener hears two stretches of calls one after the other |
| `Events.PackagesOfReceived` | capture2go/device.py:353-354 | a package listener is given exactly the packages delivered to it |
| `Queue.PollTakesFirstPackage` | capture2go/device.py:292-303 | `poll` returns nothing exactly when no package is queued; otherwise it returns the first package and leaves the later ones queued in order |
| `Queue.APollCases` | capture2go/device.py:305-319 | `apoll` ends exactly when no package is queued and the last entry is a disconnect sentinel; it waits exactly when no package is queued otherwise; else it returns the first package |
| `Queue.PollLeavesSuffix` | capture2go/device.py:292-303 | `poll` only drops entries from the front of the queue |
| `Queue.PackagesInEntries` | capture2go/device.py:355 | queuing a run of packages queues exactly those packages |
| `Queue.PollSpec` | capture2go/device.py:292-303 | `poll` on a non-empty queue always removes at least one entry; an empty queue gives nothing and stays empty |
| `Queue.APollSpec` | capture2go/device.py:305-319 | `apoll` never grows the queue, removes at least one entry when it returns a package, and leaves the queue empty when it waits or ends |
| `Session.Observe` | capture2go/device.py:342-348 | a decoded package keeps the cache consistent and never clears a latch |
| `Session.Stamp` | capture2go/device.py:349-351 | the clock backfill keeps a package's command and class and leaves every other kind of package unchanged |
| `Session.NonData` | capture2go/device.py:137-140 | the abort filter never lengthens a run |
| `Session.FeedSpec` | capture2go/device.py:328-336 | the bytes fed are the chunk itself without extraction, and a suffix of the chunk with it |
| `Session.FirstMatch` | capture2go/device.py:193-199 | a match found is a package of the run that resolves the wait |
| `Session.FeedHeard` | capture2go/device.py:328-357 | a listener registered only for packages is given exactly the packages `_feed` decoded, with their receive time filled in |
| `Session.AbortCommands` | capture2go/device.py:124-154 | stop-recording alone exactly for a recording device; stop-streaming first exactly for a streaming one, followed by a second device-info request exactly when `resent` (which `Init` ties to device info being missing after the drain); nothing otherwise |
| `Session.Device.constructor` | capture2go/device.py:74-90 | a disconnected session with empty cache, queue and listener sets, and an unpacker that resynchronises on garbage |
| `Session.Device.Send` | capture2go/device.py:164-170 | the package is appended to what was sent, and nothing else changes |
| `Session.Device.Note` | capture2go/device.py:342-348 | the cache becomes `Observe` of the old cache and the package, and nothing else changes |
| `Session.Device.LinkDown` | capture2go/usb.py:69-84 | the state becomes disconnected, the disconnect sentinel is queued, every state listener hears `disconnected` once, and nothing else changes |
| `Session.Device.ArriveLost` | capture2go/usb.py:86-90 | a lost USB link is ignored while already disconnected; otherwise the session becomes disconnected and queues the sentinel; no package is delivered |
| `Session.Device.AddStateListener` | capture2go/device.py:212-219 | the listener joins the state listeners and nothing else changes |
| `Session.Device.RemoveStateListener` | capture2go/device.py:221-228 | `registered` reports whether the listener was in the state listeners; it leaves them, and nothing else changes, so an unregistered listener (the source's `KeyError`) changes nothing |
| `Session.Device.AddDataWithRtListener` | capture2go/device.py:230-240 | the listener joins the raw-chunk listeners and nothing else changes |
| `Session.Device.RemoveDataWithRtListener` | capture2go/device.py:242-249 | `registered` reports whether the listener was in the raw-chunk listeners; it leaves them, and nothing else changes, so an unregistered listener (the source's `KeyError`) changes nothing |
| `Session.Device.AddDataListener` | capture2go/device.py:251-261 | the listener joins the chunk listeners and nothing else changes |
| `Session.Device.RemoveDataListener` | capture2go/device.py:263-269 | `registered` reports whether the listener was in the chunk listeners; it leaves them, and nothing else changes, so an unregistered listener (the source's `KeyError`) changes nothing |
| `Session.Device.AddPackageListener` | capture2go/device.py:271-281 | the listener joins the package listeners and nothing else changes |
| `Session.Device.RemovePackageListener` | capture2go/device.py:283-290 | `registered` reports whether the listener was in the package listeners; it leaves them, and nothing else changes, so an unregistered listener (the source's `KeyError`) changes nothing |
| `Session.Device.Connect` | capture2go/ble.py:57-70 | both latches are cleared, the state becomes connected, one connect sentinel is queued; the state listeners hear `connecting` then `connected` over BLE, only `connected` over USB |
| `Session.Device.Disconnect` | capture2go/usb.py:61-84 | nothing happens when already disconnected; otherwise the state becomes disconnected and is reported, and USB also queues the disconnect sentinel |
| `Session.Device.OnTransportLost` | capture2go/ble.py:83-87 | a lost link makes the session disconnected, reports that and queues the disconnect sentinel; USB ignores it while already disconnected |
| `Session.Device.Poll` | capture2go/device.py:292-303 | the result and the new queue are `PollSpec` of the old queue, and nothing else changes |
| `Session.Device.APoll` | capture2go/device.py:305-319 | the result and the new queue are `APollSpec` of the old queue, and nothing else changes |
| `Session.Device.Feed` | capture2go/device.py:328-357 | listeners, unpacker, cache and queue change exactly as `FeedSpec` decodes the chunk, and a parse error is passed on |
| `Session.Device.DrainIntoQueue` | capture2go/device.py:338-357 | every package the iterator yields, in order, updates the cache, is backfilled, given to the package listeners and queued; the drain's outcome is returned |
| `Session.Device.Receive` | capture2go/device.py:342-355 | one package updates the cache, is backfilled, given to every package listener and queued |
| `Session.Device.Arrive` | capture2go/ble.py:79-87 | the link (state, cache, queue, unpacker) becomes `ArriveSpec` of the old link and the arrival; listeners and sent packages are untouched; the packages delivered are exactly those newly queued, and a listener registered only for packages is given exactly them |
| `Session.Device.ArriveChunk` | capture2go/usb.py:86-91 | a chunk goes through `_feed`, with real-time extraction only over BLE |
| `Session.Device.AwaitLatch` | capture2go/device.py:121-122 | the link becomes `ArriveAll` over the arrivals used; the wait stops at the first arrival after which the latch is set, uses none when it already was, and uses them all only when the latch is still clear |
| `Session.Device.SendAndAwaitAck` | capture2go/device.py:172-210 | the package is sent; the link becomes `ArriveAll` over the arrivals used; the result is the first package given to the temporary listener that is the awaited class or an error about the sent command; no earlier arrival resolves it; a timeout uses every arrival; the listener sets end as they began |
| `Session.Device.AwaitMatch` | capture2go/device.py:193-208 | the link becomes `ArriveAll` over the arrivals used; the result is `FirstMatch` of the packages queued meanwhile; no earlier prefix of the arrivals resolves the wait, and no match means every arrival was used |
| `Session.Device.AbortStreaming` | capture2go/device.py:130-152 | stop-streaming is sent with the unpacker waiting for the acknowledgement; arrivals are handled until the acknowledgement is polled or the disconnect sentinel ends the iteration; the non-data packages polled are put back ahead of the rest of the queue, in order, and every entry queued after the acknowledgement, a disconnect sentinel included, is kept; device info is requested again exactly when still missing; without the acknowledgement every arrival is used and the queue is emptied |
| `Session.Device.TakeUntilAck` | capture2go/device.py:135-143 | the link becomes `ArriveAll` over the arrivals used; the entries taken are a prefix of the arrivals' queue; the kept entries are exactly the non-data packages taken, in order; it completes when the first kept stop acknowledgement is polled, which is then the last entry taken so that every entry after it stays queued, or when the disconnect sentinel ends the iteration with no acknowledgement before it; otherwise every arrival is used and the queue is empty |
| `Session.Device.Requeue` | capture2go/device.py:144-149 | the queue becomes the kept entries followed by what was queued before |
| `Session.Device.Init` | capture2go/device.py:100-162 | device info is requested; arrivals are handled until the status latch is set, with `observed` the status then cached; recording or streaming is reported exactly when that status says so and aborting was not requested; the abort drains exactly when streaming is aborted; then arrivals are handled until device info is cached; when ready, both latches are set and the commands sent are device info, the abort commands, then set-time if requested |
| `Session.Device.Proceed` | capture2go/device.py:124-162 | after the status is known: the stop phase runs on the arrivals from `start`, then the device-info wait on the rest; the outcome and the commands sent follow the sensor state and the abort flags as in `Init` |
| `Session.Device.FinishInit` | capture2go/device.py:156-162 | arrivals are handled until device info is cached; ready exactly when it is, and then set-time is sent if requested |
| `Session.Device.StopActivity` | capture2go/device.py:124-154 | stop-recording or the abort drain as the sensor state and the flags require; pending exactly when the drain did not reach the acknowledgement; the commands sent are `AbortCommands` |
| `SessionProperties.ObserveAllLatches` | capture2go/device.py:342-348 | after decoding, a latch is set exactly when it was before or a package of its kind arrived |
| `SessionProperties.ObserveAllKeepsLastStatus` | capture2go/device.py:346-348 | the cached status is the last status package decoded, or unchanged if there was none |
| `SessionProperties.ObserveAllKeepsLastDeviceInfo` | capture2go/device.py:342-345 | the cached device info is the last one decoded and the name is `IMU_` plus its serial number, or both are unchanged |
| `SessionProperties.NonDataMembers` | capture2go/device.py:137-140 | the abort filter keeps exactly the packages that are not data packages |
| `SessionProperties.NonDataAppend` | capture2go/device.py:137-140 | the abort filter keeps order across consecutive stretches |
| `SessionProperties.NonDataKeepsAll` | capture2go/device.py:137-140 | a run passes the abort filter whole exactly when it holds no data package |
| `SessionProperties.DataPackageNames` | capture2go/device.py:137-140 | the full and quaternion classes (any suffix) and the three burst and byte-stream classes are data packages; the status, device-info, clock, error and stop-acknowledgement classes are not |
| `SessionProperties.FirstMatchIsFirst` | capture2go/device.py:193-199 | no match exactly when no package resolves the wait; otherwise the match is the first that does |
| `Playback.PlaybackDevice.constructor` | capture2go/device.py:374-378 | a connected session whose unpacker reads the recording and does not resynchronise on garbage |
| `Playback.PlaybackDevice.AddStateListener` | capture2go/device.py:212-219 | the listener joins the state listeners and nothing else changes |
| `Playback.PlaybackDevice.RemoveStateListener` | capture2go/device.py:221-228 | `registered` reports whether the listener was in the state listeners; it leaves them, and nothing else changes, so an unregistered listener (the source's `KeyError`) changes nothing |
| `Playback.PlaybackDevice.Connect` | capture2go/device.py:380-383 | the state becomes connected and every state listener hears it once |
| `Playback.PlaybackDevice.Disconnect` | capture2go/device.py:385-388 | the state becomes disconnected and every state listener hears it once, even when it already was |
| `Playback.PlaybackDevice.Poll` | capture2go/device.py:396-398 | one iterator step over the recording; a returned package strictly lowers the work left |
| `Playback.PlaybackDevice.APoll` | capture2go/device.py:402-407 | the same step as `Poll`, where the end of the recording ends the asynchronous iteration |
| `Playback.PlaysRecording` | capture2go/device.py:396-398 | replaying frames followed by an incomplete tail returns exactly the frames' packages in order, then ends without error with only the tail unread |

## Left out

- The firmware's package module (`pkg`: header layout, class table, `frombytes`, class sizes) is not part of this model. It is the `Registry` value: an arbitrary class map and arbitrary header and payload decoders.
- The codec does not use module `Crc`: it calls the registry's `checksum` function, which stands for `zlib.crc32`, and its proofs hold for any checksum function. Module `Crc` defines CRC-32 on its own, with its check value; no lemma links it to the registry's function.
- Python's `AssertionError` (the real-time checks and the start-byte check of `__next__`) and `RuntimeError` are both modelled as `ParseError` values. The model does not capture that running Python with `-O` removes the assertions.
- The `print` of an unknown command in `__next__` is left out; the skip itself is modelled.
- The real-time size check compares every class with its fixed size, including variable-size ones, as the source does; this is modelled, not corrected.
- `send`, the BLE GATT write and the USB serial write and flush are modelled as appending the package to `sent`. Encoding a package into bytes is part of the package module. The BLE `RuntimeError` when no client exists yet and the USB assertion on the serial port are left out: `Session.Device.Send` always succeeds.
- `asyncio` is not modelled: no concurrency, no event loop, no timeout values. Waits become in-order handling of the arrivals passed in, and running out of arrivals stands for a timeout or a wait that has not ended.
- The listeners' own side effects, and the order in which one set's listeners are called, are left out. Each call is recorded, and the model promises only what every listener hears.
- `time.time_ns()` in `init` is the parameter `now`.
- `Session.Device.Init`: the two exceptions `DeviceIsRecording` and `DeviceIsStreaming` become outcomes. The `AssertionError` of device.py:115 (the session is not connected) is a `requires`.
- The removers' `KeyError` is the `registered` result being false; the exception itself is not raised.
- `Session.Device.Feed`: a parse error propagates out of `_feed` as an `Outcome`. What the transport's callback thread then does with it is not modelled.
- `Playback.PlaybackDevice`: opening the file is left out; the recording's bytes are a parameter. The no-op `send` and `init` are left out. So are the data and package listener sets, which it never calls.
- `Playback.PlaybackDevice.APoll`: the generator's `StopAsyncIteration` is the `Exhausted` result.
- The BLE scanner (`BleScanner`, `connect(names)`), the USB port discovery and the USB reader thread (`_readSerial`) are left out. Only their callbacks into the session are modelled: a chunk arrives, or the link is lost.
- `Session.Device.Connect`: Bleak's connect, notification start and USB port opening are left out, as is the USB reader thread's start. The USB precondition (already disconnected) is a `requires`; the source asserts it.
- `loadBinaryFile`, `capture2go/utils.py`, the examples and the documentation configuration are not part of this model.
