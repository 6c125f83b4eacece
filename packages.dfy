/**
 * The package model the codec and the session rely on. The firmware's package module (header layout,
 * the table of package classes, `frombytes`) is not part of this model: it enters as a `Registry` value
 * whose header decoder and payload decoder are arbitrary functions and whose class table is an arbitrary map.
 */
module Packages {

  /** The sensor's operating state as reported in a status package. */
  datatype SensorState = Idle | Recording | Streaming | OtherState(code: int)

  /** The decoded fields of a package, by the kind of package the session needs to tell apart. */
  datatype Body =
    | DeviceInfo(serial: string)
    | Status(sensorState: SensorState)
    | ClockRoundtrip(hostReceiveTimestamp: int, otherFields: seq<bv8>)
    | SensorErrorBody(command: bv16)
    | SetTime(newTimestamp: int)
    | Plain(payload: seq<bv8>)

  /** A typed package: its command code, its class name and its fields. */
  datatype Package = Package(header: bv16, name: string, body: Body)

  /** What the class table knows about one package class: its name, its fixed size and whether that size applies. */
  datatype PackageClass = PackageClass(name: string, size: nat, variableSize: bool)

  /** The four fields of the 8-byte frame header. */
  datatype FrameHeader = FrameHeader(startByte: bv8, header: bv16, payloadSize: nat, crc32: bv32)

  /** The command codes the core refers to by name. */
  datatype SensorHeaders = SensorHeaders(
    ackStopStreamingAndClearBuffer: bv16,
    cmdGetDeviceInfo: bv16,
    cmdStopRecording: bv16,
    cmdStopStreamingAndClearBuffer: bv16,
    cmdSetAbsoluteTime: bv16)

  /**
   * The package registry: command code to class, the decoder of the 8-byte frame header
   * (applied to exactly the first 8 bytes of a frame), each class's payload decoder, and the
   * frame checksum. The checksum stands for zlib's CRC-32; the codec treats it as a given function,
   * so its proofs hold for any checksum. Module `Crc` defines CRC-32 separately and is not linked to it.
   */
  datatype Registry = Registry(
    packages: map<bv16, PackageClass>,
    headerOf: seq<bv8> -> FrameHeader,
    frombytes: (PackageClass, seq<bv8>) -> Body,
    checksum: seq<bv8> -> bv32,
    headers: SensorHeaders)

  /** The package a class decodes from its payload. */
  function Decode(reg: Registry, header: bv16, cls: PackageClass, payload: seq<bv8>): Package
  {
    Package(header, cls.name, reg.frombytes(cls, payload))
  }

  function CmdGetDeviceInfo(reg: Registry): Package
  {
    Package(reg.headers.cmdGetDeviceInfo, "CmdGetDeviceInfo", Plain([]))
  }

  function CmdStopRecording(reg: Registry): Package
  {
    Package(reg.headers.cmdStopRecording, "CmdStopRecording", Plain([]))
  }

  function CmdStopStreamingAndClearBuffer(reg: Registry): Package
  {
    Package(reg.headers.cmdStopStreamingAndClearBuffer, "CmdStopStreamingAndClearBuffer", Plain([]))
  }

  function CmdSetAbsoluteTime(reg: Registry, newTimestamp: int): Package
  {
    Package(reg.headers.cmdSetAbsoluteTime, "CmdSetAbsoluteTime", SetTime(newTimestamp))
  }
}
