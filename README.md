# MirrorMe USB transfer core, in Dafny

This project models the USB transfer logic of the MirrorMe Android app's `UsbActivity`.

- **Dispatch.** For each device the host lists, the activity checks the app's permission. With permission it starts a send session. Without it, it asks the host to show a permission prompt. The activity also has a handler for the host's answer to a permission prompt, which would start the send session when permission is granted. As the activity registers its broadcast receiver, that answer never reaches the handler (see "## Left out").
- **Send session.** The session opens a connection to the device. It searches the device for its first bulk OUT endpoint and sends the 18 ASCII bytes of `"Hello, USB Device!"` in one bulk transfer with a 1000 ms timeout. It classifies the result (negative means failure) and starts a background receive task. It closes the connection on every way out.
- **Receive session.** The background task opens its own connection. It searches for the first bulk IN endpoint and reads into a zeroed 1024-byte buffer in one bulk transfer with a 1000 ms timeout. It hands back the first `bytesRead` bytes or null, or throws when the transfer reports more bytes than the buffer holds. It closes the connection on every way out.

Both searches run the same nested loops. The outer loop walks the interfaces in index order and the inner loop walks each interface's endpoints in index order. The search stops at the first endpoint whose transfer type is bulk and whose direction is the one wanted. An endpoint is modelled by its `bEndpointAddress` and `bmAttributes` bytes. Its transfer type is the low two bits of `bmAttributes`. Its direction is bit 7 of `bEndpointAddress`. Both come from section 9.6.6 of the USB 2.0 specification.

The modules are:

- `UsbTypes` (`usb_types.dfy`): devices, interfaces, endpoints, and the type and direction codes.
- `EndpointSearch` (`endpoint_search.dfy`): the search as a method with nested `while` loops. The method is proved equal to a recursive "first match" function. The lemmas characterise that function.
- `UsbHost` (`usb_host.dfy`): the host's side. `UsbManager` keeps the granted permissions, logs permission prompts and opens devices. A `Connection` class has an open flag, a close counter and a log of the bulk transfers issued on it. The host's answers come in as parameters: whether a device opens, the integer a transfer reports, and the bytes a device delivers.
- `Activity` (`usb_activity.dfy`): the `UsbActivity` class, the `ReceiveDataTask` class, and the specification functions and lemmas for the sessions and the dispatch loop.

Sources are cited relative to the repository root. All Java lines are in `app/src/main/java/com/domainbangla/mirrorme/UsbActivity.java`.

## Model

| member | source | states |
|---|---|---|
| `UsbTypes.TypeOf` | app/src/main/java/com/domainbangla/mirrorme/UsbActivity.java:187 | an endpoint's transfer type is one of the four codes, and it is bulk exactly when the low two bits of bmAttributes are 10 |
| `UsbTypes.DirectionOf` | app/src/main/java/com/domainbangla/mirrorme/UsbActivity.java:188 | an endpoint's direction is OUT (0) or IN (0x80), and it is IN exactly when bit 7 of the address is set |
| `EndpointSearch.FirstFrom` | app/src/main/java/com/domainbangla/mirrorme/UsbActivity.java:185-191 | the inner search gives the least index at or after j whose endpoint is bulk with the wanted direction; it gives none exactly when no such endpoint exists |
| `EndpointSearch.FirstMatchFrom` | app/src/main/java/com/domainbangla/mirrorme/UsbActivity.java:183-196 | the nested search gives a qualifying (interface, endpoint) pair in range, and no pair before it in lexicographic order qualifies; it gives none exactly when no pair qualifies |
| `EndpointSearch.FirstMatch` | app/src/main/java/com/domainbangla/mirrorme/UsbActivity.java:181-196 | the device-wide search result is a first match, and it is absent exactly when no endpoint of any interface qualifies |
| `EndpointSearch.Located` | app/src/main/java/com/domainbangla/mirrorme/UsbActivity.java:198-201 | the endpoint found is bulk with the wanted direction; "not found" holds exactly when no endpoint of the device qualifies |
| `EndpointSearch.FirstMatchIsUnique` | app/src/main/java/com/domainbangla/mirrorme/UsbActivity.java:236-251 | any qualifying pair with no earlier qualifying pair is the one the search returns, so the result is determined by the wanted type and direction alone |
| `EndpointSearch.FindEndpoint` | app/src/main/java/com/domainbangla/mirrorme/UsbActivity.java:183-196 | the two nested loops, with the inner and outer `break`, return exactly the first-match endpoint; they index interfaces and endpoints only within bounds and always terminate |
| `UsbHost.Connection.BulkTransfer` | app/src/main/java/com/domainbangla/mirrorme/UsbActivity.java:260 | a transfer needs an open connection and a length within the buffer; it appends one record with the endpoint, length and timeout to the connection's log, together with the first `length` bytes of the buffer on an OUT endpoint; on an IN endpoint it fills the buffer with the delivered bytes |
| `UsbHost.TransferOf` | app/src/main/java/com/domainbangla/mirrorme/UsbActivity.java:207 | the record of a transfer keeps its endpoint, length and timeout; on an OUT endpoint it holds exactly the first `length` bytes of the buffer, on an IN endpoint no bytes |
| `UsbHost.Connection.Close` | app/src/main/java/com/domainbangla/mirrorme/UsbActivity.java:219 | closing marks the connection closed and adds one to its close count |
| `UsbHost.UsbManager.OpenDevice` | app/src/main/java/com/domainbangla/mirrorme/UsbActivity.java:173-178 | opening yields null or a fresh open connection with no transfers and no closes |
| `UsbHost.UsbManager.HasPermission` | app/src/main/java/com/domainbangla/mirrorme/UsbActivity.java:157 | the answer is whether the device is among the granted ones |
| `UsbHost.UsbManager.RequestPermission` | app/src/main/java/com/domainbangla/mirrorme/UsbActivity.java:163-164 | asking for permission appends one prompt for the device and grants nothing |
| `Activity.Payload` | app/src/main/java/com/domainbangla/mirrorme/UsbActivity.java:204 | the send payload is the 18 bytes of the greeting text |
| `Activity.AsciiBytes` | app/src/main/java/com/domainbangla/mirrorme/UsbActivity.java:204 | encoding an ASCII string gives one byte per character, of the same code |
| `Activity.SessionTransfers` | app/src/main/java/com/domainbangla/mirrorme/UsbActivity.java:207 | a session that opened its connection issues at most one transfer; it issues none exactly when no endpoint qualifies; any transfer it issues uses the first-match endpoint of the search, which qualifies, the given length and a 1000 ms timeout, and sends the given data on an OUT endpoint and nothing on an IN endpoint |
| `Activity.SendOutcomeClassified` | app/src/main/java/com/domainbangla/mirrorme/UsbActivity.java:209-213 | the send session reports a failed open exactly when the device did not open, and "no endpoint" exactly when no endpoint is bulk OUT; it transfers exactly when both are present; a negative result is failure, and a result of zero or more is success with that count |
| `Activity.ReceivedBytes` | app/src/main/java/com/domainbangla/mirrorme/UsbActivity.java:259-267 | a successful receive hands back exactly `bytesRead` bytes, with 0 <= bytesRead <= 1024; these are the delivered bytes, then the buffer's zero fill |
| `Activity.ReceiveNullIff` | app/src/main/java/com/domainbangla/mirrorme/UsbActivity.java:253-273 | the background task returns null exactly when the open failed, no bulk IN endpoint exists or the transfer was negative; it throws exactly when the transfer reported more than the 1024-byte buffer holds; it returns the bytes read exactly when the count is between 0 and 1024 |
| `Activity.PermissionRequests` | app/src/main/java/com/domainbangla/mirrorme/UsbActivity.java:161-165 | over the first n listed devices, the loop raises no more than n prompts |
| `Activity.ScheduledReceives` | app/src/main/java/com/domainbangla/mirrorme/UsbActivity.java:215 | over the first n listed devices, the loop schedules no more than n receive tasks |
| `Activity.DispatchOneEach` | app/src/main/java/com/domainbangla/mirrorme/UsbActivity.java:156-166 | for each listed device the loop does exactly one thing: it communicates if permission is held, and asks for permission otherwise |
| `Activity.UnpermittedPrompted` | app/src/main/java/com/domainbangla/mirrorme/UsbActivity.java:161-164 | every listed device without permission gets a prompt |
| `Activity.PromptedOnlyUnpermitted` | app/src/main/java/com/domainbangla/mirrorme/UsbActivity.java:157-164 | every prompt is for a listed device that lacks permission |
| `Activity.SentDevicesReceive` | app/src/main/java/com/domainbangla/mirrorme/UsbActivity.java:207-215 | every permitted device whose send session reached its transfer gets a receive task, whatever the transfer's result |
| `Activity.ReceivesOnlyForSent` | app/src/main/java/com/domainbangla/mirrorme/UsbActivity.java:198-215 | every receive task is for a listed, permitted device whose send session opened and found a bulk OUT endpoint |
| `Activity.UsbActivity.ReceiveData` | app/src/main/java/com/domainbangla/mirrorme/UsbActivity.java:288-291 | starting a receive appends one task for the device |
| `Activity.UsbActivity.Communication` | app/src/main/java/com/domainbangla/mirrorme/UsbActivity.java:171-221 | the outcome is `SendOutcome` of the device and the host's answers; a failed open leaves no connection; otherwise the connection is closed exactly once on every path and carries exactly the transfers of `SessionTransfers` with the payload; when the transfer is issued it is the only one and the bytes sent are the 18 bytes of the greeting; a receive task is scheduled exactly when the transfer was issued |
| `Activity.UsbActivity.DispatchDevice` | app/src/main/java/com/domainbangla/mirrorme/UsbActivity.java:157-165 | for one device: the send session if permission is held, otherwise one prompt; permissions are left unchanged |
| `Activity.UsbActivity.PrintDeviceList` | app/src/main/java/com/domainbangla/mirrorme/UsbActivity.java:134-168 | over the listed devices, in order: the dispatch actions are `Dispatches` (one `DispatchOf` per device), the prompts raised are `PermissionRequests` and the receive tasks scheduled are `ScheduledReceives`; permissions are left unchanged |
| `Activity.UsbActivity.OnPermissionResult` | app/src/main/java/com/domainbangla/mirrorme/UsbActivity.java:95-99 | the send session runs exactly when permission was granted and the answer names a device; otherwise nothing happens |
| `Activity.ReceiveDataTask.DoInBackground` | app/src/main/java/com/domainbangla/mirrorme/UsbActivity.java:225-274 | the outcome is `ReceiveOutcome` of the device and the host's answers; a failed open leaves no connection; otherwise the connection is closed exactly once on every path, including the exception path, and carries exactly one 1024-byte IN transfer with a 1000 ms timeout that sends nothing, or none when no endpoint qualifies |

## Left out

- User interface: the status and result text views, toasts, and the activity lifecycle (`onCreate`, `onNewIntent`, `onDestroy`, receiver registration). The toasts of the send session (lines 176, 199, 210 and 212) run on the UI thread and only display the outcome that the model returns as a value.
- Threading: the `AsyncTask` executor and `onPostExecute`, and the `synchronized` block in the broadcast receiver. A started receive task is recorded in `pendingReceives`. The background task itself is modelled by `DoInBackground` as a plain sequential method. How tasks interleave with other sessions is not modelled.
- The detach branch of the broadcast receiver. It only prints a description of the device.
- The permission-denied branch of the broadcast receiver. It only logs and shows a toast. Logging the device's name dereferences a device that may be null, and that exception is not modelled.
- Matching the broadcast's action string, and `handleIntent`'s choice between listing all devices and describing one attached device.
- `printDeviceDescription` and `printDeviceDetails`. They format descriptors through `UsbHelper`, `DeviceDescriptor` and `ConfigurationDescriptor`, which are not part of this model.
- `UsbSenderActivity` and `UsbReceiverActivity`. Their transfers (`UsbSenderActivity.java` lines 192-210, `UsbReceiverActivity.java` lines 153-177) open the device and use interface 0 and endpoint 0 hard-coded, so they have no endpoint search. The rest is display and permission plumbing.
- `DeviceTwoActivity`. It opens no connection and issues no transfer. It only sends a local `ACTION_USB_PERMISSION` broadcast for each listed device (`DeviceTwoActivity.java` lines 71-83) and builds the text of the device list (lines 86-104).
- The host platform. Whether a device opens, what a transfer reports and which bytes arrive are parameters. Opening a device does not depend on the permission state in this model.
- `HashMap` iteration order. The listed devices come in as a sequence, in the order the host's map yields them.
- Character decoding. The received buffer is handed back as bytes rather than decoded into a Java `String` with the platform charset. Data bytes are taken as values 0..255, not Java's signed bytes.
- `ReceiveDataTask.doInBackground` takes a variable-length argument array and uses its first element. The model takes that one device directly, since the only caller passes exactly one.
- The exception raised when a transfer reports more bytes than the buffer holds is modelled as the outcome `IndexOutOfBounds`. The host API never reports more than the requested length, so in practice this path is not taken.
- Activity.ReceiveDataTask.DoInBackground: the toasts at lines 231, 254, 263 and 265 are treated as having no effect. As written, `showToast` builds a `Toast` on the `AsyncTask` worker thread, which has no `Looper`, so each of these calls would throw before the background task returns. The model follows the evidently intended behaviour, in which the background task returns null or the received bytes and only the buffer overrun throws.
- Activity.UsbActivity.OnPermissionResult: models the granted branch of the broadcast receiver (lines 95-99) as if the host's answer arrived. As written, `onCreate` (lines 63-64) registers the receiver only for `ACTION_USB_DEVICE_DETACHED`, so the `ACTION_USB_PERMISSION` broadcast that `requestPermission` (line 163) asks for never reaches it, and a device that lacked permission is never communicated with.
