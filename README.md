# Ghost Downloader socket server, modelled in Dafny

Ghost Downloader runs a WebSocket listener on the loopback interface. The
browser extension connects to it and hands over downloads it has detected.
`GhostDownloaderSocketServer` (`app/common/custom_socket.py`) does three things:

- it keeps the list of connected clients;
- it greets every new client with a version announcement
  `{"type": "version", "ClientVersion": …, "LatestExtensionVersion": …}`;
- it handles each text frame. Heartbeats are ignored. A download request has
  its `range` header dropped and its `referer` copied into the headers. The
  request then goes either to the add-task dialog (when the "raise window on
  receive" option is set) or straight to the download engine, followed by a
  pop-up. Any exception is caught and logged, and the frame is dropped.

The model has five modules:

- `Json` (`json.dfy`): decoded JSON values as Python holds them. An object is
  a `dict`, which keeps insertion order, so it is modelled as a list of
  members. The module defines the dict operations the handler uses:
  - `Get` stands for `d.get(k)` and for `d[k]` (`None` is the `KeyError`);
  - `Pop` stands for `d.pop(k, default)`;
  - `Assign` stands for `d[k] = v`.

  It also defines Python truthiness (`Truthy`). Each operation's contract
  states dict semantics: which keys are present afterwards, and what each key
  maps to.
- `Dispatcher` (`dispatcher.dfy`): `processTextMessage` as a specification.
  - `Decode` reads the frame in the code's order. It returns a heartbeat, a
    `Request`, or the reason the frame is dropped.
  - `OutgoingHeaders` is the header rewrite.
  - `Calls` lists the collaborator calls of either branch, in order.
  - `Dispatch` is what one frame causes.
  - `Performed` cuts that list short after a collaborator that raises.

  The lemmas state the handler's promises.
- `Registry` (`registry.dfy`): the client list. It defines `list.remove` as
  `RemoveFirst` and `list.index` as `Position`, and proves that a repeated
  disconnect changes nothing.
- `SocketServer` (`server.dfy`): class `Server`, whose three methods are the
  three slots.
  - `clients` is `self.clients`.
  - `outbox` records the frames sent to clients.
  - `effects` records the collaborator calls.
  - `ProcessTextMessage` is written step by step, like the source. It pops
    `range` from a local `headers`, then assigns `referer`. It returns early
    where the source raises. It is proved against `Dispatch` and `Performed`.
  - `FailedFramesDoNotBlockTheNext` and `FailedCallDoesNotBlockTheNext` are
    worked examples that use the class with made-up version strings. They
    state no contract of their own. In the first, an undecodable frame and a
    frame with a missing key leave the next request on the same connection
    to be handled in full. In the second, the first collaborator call
    raises. Only that call is made, and the same request sent again is
    handled in full.
- `Wrappers` and `Sequences`: `Option`/`Result`, and two facts about
  sequences.

Things the model takes as parameters:
- Text frames arrive already decoded: `Some(json)`, or `None` when
  `json.loads` raised.
- The configuration is passed per frame as a snapshot: the raise-window flag
  and the download folder.
- The two version strings are passed to the constructor.
- Client handles are natural numbers. `OnNewConnection` requires a handle
  that was never accepted before, because Qt hands out a new socket object for
  every connection.

Where the code is stricter than a loose reading of the protocol, the model
follows the code:
- `url`, `headers`, `referer` and `filename` are all required. Lines 56-61
  read each with `data[...]`, so a missing `filename` also drops a request
  on the dialog branch, which never uses it.
- `headers` must be a dict.
- Removing `range` is case-sensitive. A header spelled `Range` is not
  stripped: `CapitalisedRangeSurvives` proves that the code forwards it to the
  download engine, next to the referer.
- The code never checks the types of `url`, `referer` and `filename`. They
  are arbitrary JSON values in the model. A truthy `referer` of any type is
  stored, and the pop-up shows `filename` when it is truthy, otherwise `url`.

## Model

| member | source | states |
|---|---|---|
| `Json.Get` | app/common/custom_socket.py:56-61 | a lookup succeeds exactly when the key is present, and its value is a member stored under that key |
| `Json.Pop` | app/common/custom_socket.py:58 | afterwards the key is absent, every other key has its old value, the keys are the old keys minus this one, an absent key leaves the dict unchanged, and unique keys stay unique |
| `Json.Assign` | app/common/custom_socket.py:60 | afterwards the key maps to the new value, every other key keeps its value, a new key is appended at the end, and unique keys stay unique |
| `Json.Truthy` | app/common/custom_socket.py:59-69 | the truth value the `if` tests at lines 59 and 69 take: `None` and `False` are falsy, a dict is truthy exactly when it has a key, a list exactly when it has an item |
| `Json.PopRemovesOneMember` | app/common/custom_socket.py:58 | on a dict, popping a present key deletes exactly that key's member, in its position, and keeps the order of the others |
| `Json.AssignReplacesInPlace` | app/common/custom_socket.py:60 | assigning to a present key replaces its member in place |
| `Dispatcher.IsHeartbeat` | app/common/custom_socket.py:51 | a heartbeat frame holds the member `type: "heartbeat"`, and a frame without a `type` key is never a heartbeat |
| `Dispatcher.Decode` | app/common/custom_socket.py:49-61 | the frame is a heartbeat exactly when it is an object whose `type` is the string `heartbeat`; a decoded request carries exactly the frame's `url`, dict `headers`, `referer` and `filename`; a missing-key failure names a required key that is absent |
| `Dispatcher.OutgoingHeaders` | app/common/custom_socket.py:57-60 | the exact key `range` is never present; every other key except `referer` (so `Range` too) keeps its value; a truthy referer is stored under `referer`; a falsy one leaves `referer` as received; the resulting key set; unique keys stay unique |
| `Dispatcher.PopUpLabel` | app/common/custom_socket.py:69-72 | the pop-up shows the file name or the URL, the file name whenever it is truthy, and something truthy whenever either is |
| `Dispatcher.Calls` | app/common/custom_socket.py:63-72 | a request causes two calls; the first is `bringWindowToTop` exactly when the raise-window flag is set; the dialog and the download engine get the request's URL and the rewritten headers; with the flag clear the second call is the pop-up with `PopUpLabel`. The full call lists of the two branches are stated by `InteractivePath` and `DirectPath` |
| `Dispatcher.Interpret` | app/common/custom_socket.py:49-75 | a frame fails exactly when `Decode` fails, with the same reason; it is ignored exactly when it is a heartbeat; otherwise it is handled with the calls of its request |
| `Dispatcher.Dispatch` | app/common/custom_socket.py:49-75 | one frame causes no call or two: the calls of its request when it decodes to one, none when it is a heartbeat or is dropped |
| `Dispatcher.Performed` | app/common/custom_socket.py:63-75 | when one collaborator call raises, the calls made are that call and its predecessors, a prefix of the planned ones; with no exception, all planned calls are made |
| `Dispatcher.CallsExactlyForRequests` | app/common/custom_socket.py:49-75 | a frame causes collaborator calls if and only if it is an object, not a heartbeat, has all four keys and dict-valued headers; a frame that causes calls causes exactly two |
| `Dispatcher.HeartbeatIsIgnored` | app/common/custom_socket.py:51-53 | an object whose `type` is `heartbeat` is ignored and causes no call, whatever else it carries |
| `Dispatcher.FailuresAreSilent` | app/common/custom_socket.py:49-75 | undecodable text, a non-object, non-dict headers, and a missing `url`, `headers`, `referer` or `filename` (each checked after the ones read before it) make the frame fail with the matching reason; a frame missing any required key fails; a failed frame causes no call |
| `Dispatcher.MissingFilenameAbortsDialog` | app/common/custom_socket.py:61-66 | with the raise-window flag set, a request without `filename` still causes no call |
| `Dispatcher.RangeNeverForwarded` | app/common/custom_socket.py:57-58 | no headers handed to the dialog or the download engine contain the key `range` |
| `Dispatcher.FalsyRefererOnlyStripsRange` | app/common/custom_socket.py:58-60 | with a falsy referer the headers are exactly the received dict, minus its `range` member if it has one, in the same order |
| `Dispatcher.TruthyRefererIsStored` | app/common/custom_socket.py:59-60 | with a truthy referer, an existing `referer` member is overwritten in place, otherwise one is appended after the other headers |
| `Dispatcher.InteractivePath` | app/common/custom_socket.py:63-66 | with the flag set the calls are exactly: bring the window to the top, then the add-task dialog with the URL and rewritten headers; nothing is enqueued and no pop-up is shown |
| `Dispatcher.DirectPath` | app/common/custom_socket.py:67-72 | with the flag clear the calls are exactly: enqueue the URL, file name, configured folder and rewritten headers, then a pop-up with the file name when truthy, else the URL; no window is raised and no dialog is opened |
| `Dispatcher.DecodeWireForm` | app/common/custom_socket.py:56-61 | the object `{url, headers, referer, filename}` the extension sends decodes back to that request |
| `Dispatcher.CapitalisedRangeSurvives` | app/common/custom_socket.py:58 | a request with header `Range` and a referer, sent with the flag clear, enqueues with headers `Range` then `referer`, and the pop-up shows the file name |
| `Registry.Position` | app/common/custom_socket.py:42-43 | the position returned holds the client, and the client does not occur before it |
| `Registry.RemoveFirst` | app/common/custom_socket.py:42-43 | removing an absent client changes nothing; removing a present one shortens the list by one and takes exactly one copy of the client from its multiset |
| `Registry.RemoveFirstDeletesFirstOccurrence` | app/common/custom_socket.py:43 | removal deletes the first occurrence and keeps every other client in order |
| `Registry.RemoveFirstOnlyDeletes` | app/common/custom_socket.py:43 | every client left afterwards was in the list before |
| `Registry.RemoveIsIdempotent` | app/common/custom_socket.py:40-43 | in a duplicate-free list, removal leaves no copy of the client and keeps the list duplicate-free, so a second removal is a no-op |
| `SocketServer.VersionAnnouncement` | app/common/custom_socket.py:35 | the announcement is an object of exactly three distinct keys: `type` is `version`, and `ClientVersion` and `LatestExtensionVersion` carry the two version strings |
| `SocketServer.Server.Valid` | app/common/custom_socket.py:25-37 | the invariant: registered clients are distinct and were accepted, the outbox holds one announcement per accepted client in acceptance order, so every registered client was sent the announcement |
| `SocketServer.Server.constructor` | app/common/custom_socket.py:15-25 | the server starts with no clients, nothing sent, and no calls made |
| `SocketServer.Server.OnNewConnection` | app/common/custom_socket.py:28-37 | exactly one frame is sent, the announcement to the new client; then the client is appended (`clients == old(clients) + [c]`); no collaborator is called; the invariant of one announcement per accepted client is kept |
| `SocketServer.Server.OnClientDisconnected` | app/common/custom_socket.py:40-44 | the client list becomes `RemoveFirst` of the old one, the client is no longer registered, and nothing else changes |
| `SocketServer.Server.ProcessTextMessage` | app/common/custom_socket.py:47-75 | the calls appended are exactly `Performed(Dispatch(frame, config), raising)`; the clients and the outbox are unchanged, so a dropped or failing frame leaves the connection registered |
| `SocketServer.Server.CallCollaborators` | app/common/custom_socket.py:63-72 | the branch on the flag makes exactly the calls of `Calls`, cut short at a raising collaborator |
| `SocketServer.Server.Invoke` | app/common/custom_socket.py:65-72 | one collaborator call is recorded, and the result tells whether it raised |

## Left out

- Creating the `QWebSocketServer`, `listen` on `localhost:14370`, and wiring
  the Qt signals to the slots (lines 19-24, 32-33): these are network and
  event-loop plumbing. A failed `listen` in the source is only not logged; no
  error is raised.
- `self.sender()` (line 41): the disconnecting client is an explicit argument.
- `json.loads` and `json.dumps` (lines 35, 50): frames are taken already
  decoded, with `None` for a decode error. The outbox holds the announcement
  before JSON encoding.
- Logging through loguru (lines 22, 30, 44, 54, 75): it is a side channel
  with nothing to verify.
- What `bringWindowToTop`, `showAddTaskDialog`, `addDownloadTask` and
  `ReceivedPopUpWindow.showPopUpWindow` do, and where `cfg` is stored (lines
  8-10, 63-72): foreign GUI and download-engine code. Their calls are recorded
  as effects, and the configuration is a parameter.
- `self.parent()` (lines 64, 70, 72): it is the main window, passed to the
  collaborators, and is not part of the recorded effects.
- A `JNumber` is the number Python holds after decoding, written as a
  decimal mantissa and exponent, because truthiness is all the handler
  observes of it. A literal that underflows to `0.0` (`1e-400`) is a
  `JNumber` with mantissa 0; the rounding of `json.loads` itself is not
  modelled. Python's `NaN` and `Infinity` literals are not distinguished
  from other non-zero numbers.
- Duplicate keys in the raw text: `json.loads` collapses them before the
  handler runs, so the model starts from an already decoded object.
