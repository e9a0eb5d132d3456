/** The activity's transfer logic: the send session it runs for a permitted device, the
    background receive session that the send session schedules, the per-device dispatch
    between communicating and asking for permission, and the reaction to the host's answer
    to a permission prompt. Each session opens a connection, searches the device for its
    endpoint, issues at most one bulk transfer with a 1000 ms timeout and closes the
    connection on every way out. */
module Activity {
  import opened UsbTypes
  import opened EndpointSearch
  import opened UsbHost

  const TransferTimeoutMs: int := 1000
  const ReceiveBufferSize: nat := 1024
  const Greeting: string := "Hello, USB Device!"

  /** How one session ends. `IndexOutOfBounds` is the exception raised when a transfer reports
      more bytes than the receive buffer holds. */
  datatype SessionOutcome<T> =
    | NoConnection
    | NoEndpoint
    | TransferFailed(signal: int)
    | Done(value: T)
    | IndexOutOfBounds

  /** What the host answers during one session: whether the device opens, what the bulk
      transfer reports, and the bytes the device delivers on an IN transfer. */
  datatype HostReply = HostReply(opens: bool, signal: int, incoming: seq<byte>)

  /** What the dispatch loop does for one listed device. */
  datatype Dispatch = Communicated(outcome: SessionOutcome<int>) | PermissionRequested

  predicate ReachedTransfer<T>(o: SessionOutcome<T>) {
    o.TransferFailed? || o.Done? || o.IndexOutOfBounds?
  }

  /** The bytes of an ASCII string, one per character. */
  function AsciiBytes(s: string): (b: seq<byte>)
    requires forall k :: 0 <= k < |s| ==> s[k] as int < 128
    ensures |b| == |s|
    ensures forall k :: 0 <= k < |s| ==> b[k] as int == s[k] as int
  {
    seq(|s|, k requires 0 <= k < |s| => s[k] as int as byte)
  }

  /** The payload of the send session. */
  function Payload(): (p: seq<byte>)
    ensures |p| == |Greeting| == 18
  {
    AsciiBytes(Greeting)
  }

  function Zeros(n: nat): (z: seq<byte>)
    ensures |z| == n && forall k :: 0 <= k < n ==> z[k] == 0
  {
    seq(n, _ => 0)
  }

  /** The transfers a session that opened its connection issues with a buffer whose first
      `length` bytes are `data`: one on the first qualifying endpoint, or none when the device
      has no such endpoint. On an OUT endpoint those bytes go out; on an IN endpoint nothing does. */
  function SessionTransfers(d: UsbDevice, dir: int, length: nat, data: seq<byte>): (ts: seq<Transfer>)
    requires |data| == length
    ensures |ts| <= 1
    ensures ts == [] <==> NoneQualify(d, dir)
    ensures forall t :: t in ts ==> Qualifies(t.endpoint, dir) && t.length == length && t.timeoutMs == TransferTimeoutMs
    ensures forall t :: t in ts ==> t.sent == if dir == DirOut then data else []
    ensures forall t :: t in ts ==> Located(d, dir) == Some(t.endpoint)
  {
    match Located(d, dir)
    case None => []
    case Some(e) => [TransferOf(e, data, length, TransferTimeoutMs)]
  }

  /** Outcome of the send session. */
  function SendOutcome(d: UsbDevice, h: HostReply): SessionOutcome<int> {
    if !h.opens then NoConnection
    else if Located(d, DirOut).None? then NoEndpoint
    else if h.signal < 0 then TransferFailed(h.signal)
    else Done(h.signal)
  }

  /** Outcome of the receive session: on success, the first `signal` bytes of a zeroed
      1024-byte buffer into which the host copied the delivered bytes. */
  function ReceiveOutcome(d: UsbDevice, h: HostReply): SessionOutcome<seq<byte>> {
    if !h.opens then NoConnection
    else if Located(d, DirIn).None? then NoEndpoint
    else if h.signal < 0 then TransferFailed(h.signal)
    else if h.signal > ReceiveBufferSize then IndexOutOfBounds
    else Done(Filled(Zeros(ReceiveBufferSize), h.incoming, ReceiveBufferSize)[..h.signal])
  }

  /** How the background task leaves: it returns the received bytes or null, or it throws. */
  datatype TaskExit = Returned(result: Option<seq<byte>>) | Threw

  /** How the background task leaves after a session with the given outcome: only the
      buffer overrun escapes as an exception, every other failure returns null. */
  function TaskResult(o: SessionOutcome<seq<byte>>): TaskExit {
    if o.Done? then Returned(Some(o.value))
    else if o.IndexOutOfBounds? then Threw
    else Returned(None)
  }

  /** The send session gets as far as its bulk transfer. */
  predicate SendsPayload(d: UsbDevice, h: HostReply) {
    h.opens && Located(d, DirOut).Some?
  }

  function DispatchOf(d: UsbDevice, h: HostReply, granted: set<string>): Dispatch {
    if d.name in granted then Communicated(SendOutcome(d, h)) else PermissionRequested
  }

  /** What the dispatch loop does for the first n listed devices, in order. */
  function Dispatches(ds: seq<UsbDevice>, hs: seq<HostReply>, granted: set<string>, n: nat): seq<Dispatch>
    requires |hs| == |ds| && n <= |ds|
  {
    if n == 0 then []
    else Dispatches(ds, hs, granted, n - 1) + [DispatchOf(ds[n - 1], hs[n - 1], granted)]
  }

  /** The permission prompts the dispatch loop raises for the first n listed devices. */
  function PermissionRequests(ds: seq<UsbDevice>, granted: set<string>, n: nat): (r: seq<string>)
    requires n <= |ds|
    ensures |r| <= n
  {
    if n == 0 then []
    else PermissionRequests(ds, granted, n - 1) + (if ds[n - 1].name !in granted then [ds[n - 1].name] else [])
  }

  /** The devices among the first n listed for which the dispatch loop schedules a receive
      task: the permitted ones whose send session reached its transfer. */
  function ScheduledReceives(ds: seq<UsbDevice>, hs: seq<HostReply>, granted: set<string>, n: nat): (r: seq<UsbDevice>)
    requires |hs| == |ds| && n <= |ds|
    ensures |r| <= n
  {
    if n == 0 then []
    else
      ScheduledReceives(ds, hs, granted, n - 1) +
        (if ds[n - 1].name in granted && SendsPayload(ds[n - 1], hs[n - 1]) then [ds[n - 1]] else [])
  }

  /** The dispatch loop does exactly one thing per device: it communicates with the device
      if and only if permission is held, and asks for permission otherwise. */
  lemma {:induction false} DispatchOneEach(ds: seq<UsbDevice>, hs: seq<HostReply>, granted: set<string>, n: nat)
    requires |hs| == |ds| && n <= |ds|
    ensures |Dispatches(ds, hs, granted, n)| == n
    ensures forall k :: 0 <= k < n ==>
      Dispatches(ds, hs, granted, n)[k] == if ds[k].name in granted then Communicated(SendOutcome(ds[k], hs[k]))
                                           else PermissionRequested
  {
    if n > 0 {
      DispatchOneEach(ds, hs, granted, n - 1);
    }
  }

  /** Every listed device without permission gets a prompt. */
  lemma {:induction false} UnpermittedPrompted(ds: seq<UsbDevice>, granted: set<string>, n: nat, k: nat)
    requires n <= |ds| && k < n && ds[k].name !in granted
    ensures ds[k].name in PermissionRequests(ds, granted, n)
  {
    if k < n - 1 {
      UnpermittedPrompted(ds, granted, n - 1, k);
    }
  }

  /** Every prompt is for a listed device without permission. */
  lemma {:induction false} PromptedOnlyUnpermitted(ds: seq<UsbDevice>, granted: set<string>, n: nat, name: string)
    requires n <= |ds| && name in PermissionRequests(ds, granted, n)
    ensures name !in granted && exists k :: 0 <= k < n && ds[k].name == name
  {
    if name in PermissionRequests(ds, granted, n - 1) {
      PromptedOnlyUnpermitted(ds, granted, n - 1, name);
    } else {
      assert ds[n - 1].name == name;
    }
  }

  /** Every permitted device whose send session reached its transfer gets a receive task. */
  lemma {:induction false} SentDevicesReceive(ds: seq<UsbDevice>, hs: seq<HostReply>, granted: set<string>, n: nat, k: nat)
    requires |hs| == |ds| && n <= |ds|
    requires k < n && ds[k].name in granted && SendsPayload(ds[k], hs[k])
    ensures ds[k] in ScheduledReceives(ds, hs, granted, n)
  {
    if k < n - 1 {
      SentDevicesReceive(ds, hs, granted, n - 1, k);
    }
  }

  /** Every receive task is for a listed, permitted device whose send session reached its
      transfer. */
  lemma {:induction false} ReceivesOnlyForSent(ds: seq<UsbDevice>, hs: seq<HostReply>, granted: set<string>, n: nat, d: UsbDevice)
    requires |hs| == |ds| && n <= |ds|
    requires d in ScheduledReceives(ds, hs, granted, n)
    ensures d.name in granted && exists k :: 0 <= k < n && ds[k] == d && SendsPayload(d, hs[k])
  {
    if d in ScheduledReceives(ds, hs, granted, n - 1) {
      ReceivesOnlyForSent(ds, hs, granted, n - 1, d);
    } else {
      assert ds[n - 1] == d;
    }
  }

  /** The send session issues its transfer exactly when the connection opened and the
      device has a bulk OUT endpoint; otherwise it reports which of the two was missing. */
  lemma SendOutcomeClassified(d: UsbDevice, h: HostReply)
    ensures SendOutcome(d, h) == NoConnection <==> !h.opens
    ensures SendOutcome(d, h) == NoEndpoint <==> h.opens && NoneQualify(d, DirOut)
    ensures ReachedTransfer(SendOutcome(d, h)) <==> h.opens && !NoneQualify(d, DirOut)
    ensures SendOutcome(d, h).TransferFailed? ==> h.signal < 0
    ensures SendOutcome(d, h).Done? ==> SendOutcome(d, h).value == h.signal >= 0
    ensures !SendOutcome(d, h).IndexOutOfBounds?
  {
  }

  /** A successful receive hands back exactly `signal` bytes: the delivered bytes where the
      device delivered any, and the buffer's zero fill after them. */
  lemma ReceivedBytes(d: UsbDevice, h: HostReply)
    requires ReceiveOutcome(d, h).Done?
    ensures h.opens && !NoneQualify(d, DirIn)
    ensures 0 <= h.signal <= ReceiveBufferSize
    ensures |ReceiveOutcome(d, h).value| == h.signal
    ensures forall k :: 0 <= k < h.signal ==>
      ReceiveOutcome(d, h).value[k] == if k < |h.incoming| then h.incoming[k] else 0
    ensures h.signal <= |h.incoming| ==> ReceiveOutcome(d, h).value == h.incoming[..h.signal]
  {
  }

  /** The background task returns null exactly when the open failed, no bulk IN endpoint exists or the
      transfer failed; it throws exactly when the transfer reported more than the buffer
      holds; otherwise it returns the bytes read. */
  lemma ReceiveNullIff(d: UsbDevice, h: HostReply)
    ensures TaskResult(ReceiveOutcome(d, h)) == Returned(None) <==>
      !h.opens || NoneQualify(d, DirIn) || h.signal < 0
    ensures TaskResult(ReceiveOutcome(d, h)).Threw? <==>
      h.opens && !NoneQualify(d, DirIn) && h.signal > ReceiveBufferSize
    ensures TaskResult(ReceiveOutcome(d, h)).Returned? && TaskResult(ReceiveOutcome(d, h)).result.Some? <==>
      h.opens && !NoneQualify(d, DirIn) && 0 <= h.signal <= ReceiveBufferSize
  {
  }

  class UsbActivity {
    const manager: UsbManager
    /** Receive tasks handed to the background executor, one device each, in order. */
    var pendingReceives: seq<UsbDevice>

    constructor (manager: UsbManager)
      ensures this.manager == manager && pendingReceives == []
    {
      this.manager := manager;
      pendingReceives := [];
    }

    /** Starts a background receive task for the device. */
    method ReceiveData(device: UsbDevice)
      modifies this`pendingReceives
      ensures pendingReceives == old(pendingReceives) + [device]
    {
      pendingReceives := pendingReceives + [device];
    }

    /** The send session. `session` is the connection it opened, if any. */
    method Communication(device: UsbDevice, reply: HostReply) returns (outcome: SessionOutcome<int>, ghost session: Connection?)
      modifies this`pendingReceives
      ensures outcome == SendOutcome(device, reply)
      ensures (session == null) == !reply.opens
      ensures session != null ==> fresh(session) && session.device == device.name
      ensures session != null ==> !session.isOpen && session.closeCount == 1
      ensures session != null ==> session.transfers == SessionTransfers(device, DirOut, |Payload()|, Payload())
      ensures session != null && SendsPayload(device, reply) ==>
        |session.transfers| == 1 && session.transfers[0].sent == Payload()
      ensures ReachedTransfer(outcome) <==> SendsPayload(device, reply)
      ensures pendingReceives == old(pendingReceives) + (if SendsPayload(device, reply) then [device] else [])
    {
      var connection := manager.OpenDevice(device, reply.opens);
      session := connection;
      if connection == null {
        outcome := NoConnection;
        return;
      }
      // try
      var outEndpoint := FindEndpoint(device, DirOut);
      if outEndpoint.None? {
        outcome := NoEndpoint;
      } else {
        var payload := Payload();
        var dataToSend := new byte[|payload|](k requires 0 <= k < |payload| => payload[k]);
        assert dataToSend[..] == payload;
        var result := connection.BulkTransfer(outEndpoint.value, dataToSend, dataToSend.Length,
                                              TransferTimeoutMs, reply.signal, reply.incoming);
        if result < 0 {
          outcome := TransferFailed(result);
        } else {
          outcome := Done(result);
        }
        ReceiveData(device);
      }
      // finally
      connection.Close();
    }

    /** The body of the dispatch loop for one device: communicate if permission is already
        held, otherwise ask for it. */
    method DispatchDevice(device: UsbDevice, reply: HostReply) returns (ghost action: Dispatch)
      modifies this`pendingReceives, manager`requested
      ensures action == DispatchOf(device, reply, manager.granted)
      ensures manager.requested == old(manager.requested) + (if device.name !in manager.granted then [device.name] else [])
      ensures pendingReceives == old(pendingReceives) +
        (if device.name in manager.granted && SendsPayload(device, reply) then [device] else [])
    {
      var permitted := manager.HasPermission(device);
      if permitted {
        var outcome;
        ghost var session;
        outcome, session := Communication(device, reply);
        action := Communicated(outcome);
      } else {
        manager.RequestPermission(device);
        action := PermissionRequested;
      }
    }

    /** For each listed device, in the order the host lists them, the dispatch above.
        `replies[k]` is the host's answer for the session with `devices[k]`. */
    method PrintDeviceList(devices: seq<UsbDevice>, replies: seq<HostReply>) returns (ghost actions: seq<Dispatch>)
      requires |replies| == |devices|
      modifies this`pendingReceives, manager`requested
      ensures actions == Dispatches(devices, replies, manager.granted, |devices|)
      ensures manager.requested == old(manager.requested) + PermissionRequests(devices, manager.granted, |devices|)
      ensures pendingReceives == old(pendingReceives) + ScheduledReceives(devices, replies, manager.granted, |devices|)
    {
      actions := [];
      var k := 0;
      while k < |devices|
        invariant 0 <= k <= |devices|
        invariant manager.granted == old(manager.granted)
        invariant actions == Dispatches(devices, replies, manager.granted, k)
        invariant manager.requested == old(manager.requested) + PermissionRequests(devices, manager.granted, k)
        invariant pendingReceives == old(pendingReceives) + ScheduledReceives(devices, replies, manager.granted, k)
      {
        ghost var action := DispatchDevice(devices[k], replies[k]);
        actions := actions + [action];
        k := k + 1;
      }
    }

    /** The host's answer to a permission prompt: communicate with the device when permission
        was granted and the answer names a device. */
    method OnPermissionResult(device: Option<UsbDevice>, permissionGranted: bool, reply: HostReply)
      returns (outcome: Option<SessionOutcome<int>>)
      modifies this`pendingReceives
      ensures outcome == if permissionGranted && device.Some? then Some(SendOutcome(device.value, reply)) else None
      ensures pendingReceives == old(pendingReceives) +
        (if outcome.Some? && SendsPayload(device.value, reply) then [device.value] else [])
    {
      if permissionGranted {
        if device.Some? {
          var sent;
          ghost var session;
          sent, session := Communication(device.value, reply);
          outcome := Some(sent);
          return;
        }
      }
      outcome := None;
    }
  }

  /** The background receive task. */
  class ReceiveDataTask {
    const manager: UsbManager

    constructor (manager: UsbManager)
      ensures this.manager == manager
    {
      this.manager := manager;
    }

    /** The receive session, run for the one device the background task was started with. */
    method DoInBackground(device: UsbDevice, reply: HostReply) returns (outcome: SessionOutcome<seq<byte>>, ghost session: Connection?)
      ensures outcome == ReceiveOutcome(device, reply)
      ensures (session == null) == !reply.opens
      ensures session != null ==> fresh(session) && session.device == device.name
      ensures session != null ==> !session.isOpen && session.closeCount == 1
      ensures session != null ==> session.transfers == SessionTransfers(device, DirIn, ReceiveBufferSize, Zeros(ReceiveBufferSize))
    {
      var connection := manager.OpenDevice(device, reply.opens);
      session := connection;
      if connection == null {
        outcome := NoConnection;
        return;
      }
      // try
      var inEndpoint := FindEndpoint(device, DirIn);
      if inEndpoint.None? {
        outcome := NoEndpoint;
      } else {
        var buffer := new byte[ReceiveBufferSize](_ => 0);
        assert buffer[..] == Zeros(ReceiveBufferSize);
        var bytesRead := connection.BulkTransfer(inEndpoint.value, buffer, buffer.Length,
                                                 TransferTimeoutMs, reply.signal, reply.incoming);
        if bytesRead < 0 {
          outcome := TransferFailed(bytesRead);
        } else if bytesRead > buffer.Length {
          outcome := IndexOutOfBounds;
        } else {
          outcome := Done(buffer[..bytesRead]);
        }
      }
      // finally
      connection.Close();
    }
  }
}
