/** The host side the activity talks to: the USB manager (permissions, opening a device)
    and an open device connection (bulk transfers, close). What the host answers -- whether
    a device opens, what a transfer reports, which bytes a device delivers -- is not decided
    here: each answer comes in as a parameter. */
module UsbHost {
  import opened UsbTypes

  /** One bulk transfer issued on a connection. `sent` is what went out to the device: the
      first `length` bytes of the buffer on an OUT endpoint, nothing on an IN endpoint. */
  datatype Transfer = Transfer(endpoint: Endpoint, length: int, timeoutMs: int, sent: seq<byte>)

  /** The record of a transfer of the first `length` bytes of `buf` on `endpoint`. */
  function TransferOf(endpoint: Endpoint, buf: seq<byte>, length: int, timeoutMs: int): (t: Transfer)
    requires 0 <= length <= |buf|
    ensures t.endpoint == endpoint && t.length == length && t.timeoutMs == timeoutMs
    ensures DirectionOf(endpoint) == DirOut ==> |t.sent| == length && forall k :: 0 <= k < length ==> t.sent[k] == buf[k]
    ensures DirectionOf(endpoint) == DirIn ==> t.sent == []
  {
    Transfer(endpoint, length, timeoutMs, if DirectionOf(endpoint) == DirOut then buf[..length] else [])
  }

  function Min(a: int, b: int): int { if a <= b then a else b }

  /** The buffer after the host copied the delivered bytes into its first `length` cells. */
  function Filled(buf: seq<byte>, incoming: seq<byte>, length: int): (r: seq<byte>)
    ensures |r| == |buf|
    ensures forall k :: 0 <= k < |buf| ==> r[k] == if k < length && k < |incoming| then incoming[k] else buf[k]
  {
    var n := Min(Min(if length < 0 then 0 else length, |incoming|), |buf|);
    incoming[..n] + buf[n..]
  }

  /** An open session with one device. */
  class Connection {
    const device: string
    var isOpen: bool
    var closeCount: nat
    var transfers: seq<Transfer>

    constructor (device: string)
      ensures this.device == device && isOpen && closeCount == 0 && transfers == []
    {
      this.device := device;
      isOpen := true;
      closeCount := 0;
      transfers := [];
    }

    /** A single bulk transfer of `length` bytes of `buffer` on `endpoint`. The host reports
        `signal` (negative on failure); on an IN endpoint it copies the delivered bytes into
        the buffer, on an OUT endpoint the buffer is only read. */
    method BulkTransfer(endpoint: Endpoint, buffer: array<byte>, length: int, timeoutMs: int,
                        signal: int, incoming: seq<byte>) returns (n: int)
      requires isOpen
      requires 0 <= length <= buffer.Length
      modifies this`transfers, buffer
      ensures transfers == old(transfers) + [TransferOf(endpoint, old(buffer[..]), length, timeoutMs)]
      ensures n == signal
      ensures buffer[..] == if DirectionOf(endpoint) == DirIn then Filled(old(buffer[..]), incoming, length)
                            else old(buffer[..])
    {
      transfers := transfers + [TransferOf(endpoint, buffer[..], length, timeoutMs)];
      if DirectionOf(endpoint) == DirIn {
        forall k | 0 <= k < buffer.Length && k < length && k < |incoming| {
          buffer[k] := incoming[k];
        }
      }
      n := signal;
    }

    method Close()
      modifies this`isOpen, this`closeCount
      ensures !isOpen && closeCount == old(closeCount) + 1
    {
      isOpen := false;
      closeCount := closeCount + 1;
    }
  }

  /** The host's USB manager: which devices the app may open, and the permission prompts it
      has been asked to show. */
  class UsbManager {
    var granted: set<string>
    var requested: seq<string>

    constructor (granted: set<string>)
      ensures this.granted == granted && requested == []
    {
      this.granted := granted;
      requested := [];
    }

    method HasPermission(device: UsbDevice) returns (b: bool)
      ensures b <==> device.name in granted
    {
      b := device.name in granted;
    }

    /** Asks the host to prompt for permission; the answer arrives later as an event. */
    method RequestPermission(device: UsbDevice)
      modifies this`requested
      ensures requested == old(requested) + [device.name]
    {
      requested := requested + [device.name];
    }

    /** A fresh open connection, or null when the host refuses (`opens` false). */
    method OpenDevice(device: UsbDevice, opens: bool) returns (c: Connection?)
      ensures (c != null) == opens
      ensures c != null ==> fresh(c) && c.device == device.name && c.isOpen && c.closeCount == 0 && c.transfers == []
    {
      if opens {
        c := new Connection(device.name);
      } else {
        c := null;
      }
    }
  }
}
