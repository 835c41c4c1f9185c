/** The LTX downlink codec (paydown_ltx.js): a command string is sent on
    fPort 10 as one byte per UTF-16 code unit, at most 51 of them. The
    string is a sequence of code units; `charCodeAt` reads one. */
module Downlink {
  import opened Wrappers
  import opened Words

  /** The command port of LTX devices. */
  const CmdPort := 10

  /** The longest command a device accepts. */
  const MaxCmd := 51

  /** The warning the encoder attaches. `warnings` is assigned, never
      appended to, so at most one survives. */
  datatype Warning = PortForced(port: int) | ZeroLength | Truncated(length: nat)

  /** `{errors: [...]}` when cmd is not a string; otherwise the port, the
      bytes and the surviving warning. */
  datatype Encoded = EncodeError | Encoded(fPort: int, bytes: seq<u16>, warning: Option<Warning>)

  function Min(a: nat, b: nat): nat
  {
    if a <= b then a else b
  }

  /** The one warning left after the encoder's assignments, by priority:
      a length warning replaces the port warning. */
  function DownlinkWarning(len: nat, fPort: Option<int>): (w: Option<Warning>)
    ensures w == Some(ZeroLength) <==> len == 0
    ensures w == Some(Truncated(len)) <==> len > MaxCmd
    ensures 1 <= len <= MaxCmd ==> (w.Some? <==> fPort.Some? && fPort.value != CmdPort)
    ensures w.Some? && w.value.PortForced? ==> w.value.port == fPort.value
    ensures 1 <= len <= MaxCmd && w.Some? ==> w == Some(PortForced(fPort.value))
  {
    if len < 1 then Some(ZeroLength)
    else if len > MaxCmd then Some(Truncated(len))
    else if fPort.Some? && fPort.value != CmdPort then Some(PortForced(fPort.value))
    else None
  }

  /** What encodeDownlink returns: cmd is None when `input.data.cmd` is
      not a string, fPort None when `input.fPort` is undefined. */
  function EncodeSpec(cmd: Option<seq<u16>>, fPort: Option<int>): (e: Encoded)
  {
    if cmd.None? then EncodeError
    else Encoded(CmdPort, cmd.value[..Min(|cmd.value|, MaxCmd)], DownlinkWarning(|cmd.value|, fPort))
  }

  /** encodeDownlink: the warnings are set in source order, the length
      clamped to 51, and the bytes pushed one code unit at a time. */
  method EncodeDownlink(cmd: Option<seq<u16>>, fPort: Option<int>) returns (r: Encoded)
    ensures r == EncodeSpec(cmd, fPort)
    ensures r.EncodeError? <==> cmd.None?
    ensures r.Encoded? ==> r.fPort == CmdPort && |r.bytes| == Min(|cmd.value|, MaxCmd)
    ensures r.Encoded? ==> forall i :: 0 <= i < |r.bytes| ==> r.bytes[i] == cmd.value[i]
  {
    if cmd.None? {
      return EncodeError;
    }
    var s := cmd.value;
    var cbytes: seq<u16> := [];
    var warning: Option<Warning> := None;
    if fPort.Some? && fPort.value != CmdPort {
      warning := Some(PortForced(fPort.value));
    }
    var cl := |s|;
    if cl < 1 {
      warning := Some(ZeroLength);
    } else if cl > MaxCmd {
      warning := Some(Truncated(cl));
      cl := MaxCmd;
    }
    for i := 0 to cl
      invariant cbytes == s[..i]
    {
      cbytes := cbytes + [s[i]];
    }
    r := Encoded(CmdPort, cbytes, warning);
  }

  /** What decodeDownlink returns: an error naming any port but 10
      (None is `undefined`), or the command rebuilt from the bytes. */
  datatype Decoded = DownError(port: Option<int>) | DownCmd(cmd: seq<u16>)

  /** `String.fromCharCode` keeps the low 16 bits of each number. */
  function ToUint16(x: int): u16
  {
    x % 0x1_0000
  }

  /** decodeDownlink: only fPort 10 decodes; each byte becomes one code
      unit of the command. */
  function DecodeDownlink(fPort: Option<int>, bytes: seq<int>): (r: Decoded)
    ensures r.DownCmd? <==> fPort == Some(CmdPort)
    ensures r.DownError? ==> r.port == fPort
    ensures r.DownCmd? ==> |r.cmd| == |bytes| && forall i :: 0 <= i < |bytes| ==> r.cmd[i] == ToUint16(bytes[i])
  {
    if fPort != Some(CmdPort) then DownError(fPort)
    else DownCmd(seq(|bytes|, i requires 0 <= i < |bytes| => ToUint16(bytes[i])))
  }

  /** The encoder always sends on port 10, its bytes are the first
      min(|cmd|, 51) code units, and its warning is the one the
      assignments leave. */
  lemma EncodeShape(cmd: seq<u16>, fPort: Option<int>)
    ensures var e := EncodeSpec(Some(cmd), fPort);
      e.Encoded? && e.fPort == CmdPort
      && |e.bytes| <= MaxCmd && e.bytes <= cmd
      && (|e.bytes| == |cmd| <==> |cmd| <= MaxCmd)
      && (e.warning.None? <==> 1 <= |cmd| <= MaxCmd && (fPort.None? || fPort.value == CmdPort))
  {
  }

  /** Round trip: decoding what was encoded gives back the command, cut to
      51 code units. */
  lemma RoundTrip(cmd: seq<u16>, fPort: Option<int>)
    ensures var e := EncodeSpec(Some(cmd), fPort);
      DecodeDownlink(Some(e.fPort), e.bytes) == DownCmd(cmd[..Min(|cmd|, MaxCmd)])
    ensures |cmd| <= MaxCmd ==> DecodeDownlink(Some(CmdPort), EncodeSpec(Some(cmd), fPort).bytes) == DownCmd(cmd)
  {
    var e := EncodeSpec(Some(cmd), fPort);
    var d := DecodeDownlink(Some(e.fPort), e.bytes);
    assert d.cmd == cmd[..Min(|cmd|, MaxCmd)];
    assert |cmd| <= MaxCmd ==> cmd[..Min(|cmd|, MaxCmd)] == cmd;
  }

  /** The other direction: bytes of at most 51 code units that decode on
      port 10 are re-encoded to themselves, without a warning unless they
      are empty. */
  lemma DecodeEncode(bytes: seq<u16>)
    requires |bytes| <= MaxCmd
    ensures var d := DecodeDownlink(Some(CmdPort), bytes);
      EncodeSpec(Some(d.cmd), Some(CmdPort)) == Encoded(CmdPort, bytes, if bytes == [] then Some(ZeroLength) else None)
  {
    var d := DecodeDownlink(Some(CmdPort), bytes);
    assert d.cmd == bytes;
  }

  /** "p 300" is sent as 70 20 33 30 30. */
  lemma CmdP300()
    ensures var cmd: seq<u16> := seq(5, i requires 0 <= i < 5 => "p 300"[i] as int);
      EncodeSpec(Some(cmd), None) == Encoded(CmdPort, [0x70, 0x20, 0x33, 0x30, 0x30], None)
  {
  }
}
