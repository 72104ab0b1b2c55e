# Screen-share signaling: a Dafny model

The repository is a browser screen-sharing application. A *broadcaster* page
captures its screen and streams it over WebRTC to *viewer* pages in the same
room. A small socket.io server relays the connection-setup messages between
the pages. This project models the two pieces of real logic in it:

- **The signaling relay** (`server.js`). Each socket is in a set of rooms. On
  `join-room` the socket joins the room, the other members get
  `user-joined(socket.id, mode)` and the joiner gets `joined-success`.
  `offer`, `answer` and `ice-candidate` go to one target id, stamped with the
  sender's id. Module `Relay` models the socket.io primitives with two pieces of
  state: a membership map from socket id to rooms, and an outbox of deliveries.
  `io.to(t)` reaches every connected socket in room `t`; a socket is always in
  the room named by its own id. `socket.to(room)` reaches the room minus the
  sender. When one `emit` goes to a set of sockets, the order of the
  deliveries is left open: `FanOut` says each recipient gets the event exactly
  once and nobody else gets it.
- **The client session** (`script.js`, class `ScreenShareApp`). Module
  `Client` holds the peer-link table keyed by remote socket id and the handlers
  that fill it, use it and empty it. It also holds the pure decision tables:
  mode fallback, room id, capture constraints, notification icons and quality
  bands. An `RTCPeerConnection` is a `PeerLink` handle. It records the
  descriptions applied to it, whether it is closed, the tracks added and the
  remote candidates applied. Socket emits are appended to `sent`, and
  notifications to `notices`.
- **The handshake across both** (module `Handshake`). It composes a client
  emit with the server's positional binding of handler parameters.

`protocol.dfy` holds what both sides share: JavaScript values with their
truthiness, the three directed message kinds, and the client's emits.

The browser primitives' outcomes are parameters of the handlers. These cover
`getDisplayMedia`, the offer and answer promises, and
`setRemoteDescription`/`addIceCandidate`. `Reply` stands for a promise that
is resolved or rejected; a `bool` says whether an operation was accepted.
Each `async` handler is one sequential step.

### Behaviour of the code worth knowing

- The **viewer** sends the offer when a broadcaster is announced to it
  (`HandleBroadcasterJoined`); the broadcaster only answers (`HandleOffer`).
- A broadcaster never opens a link to a viewer announced after it: it only
  shows a notification (`AnnouncesViewer`).
- A remote ICE candidate is applied at once to the link stored for its sender,
  or dropped when there is no such link.
- A failed negotiation leaves the link in the table, neither closed nor
  removed. A link replaced in the table is not closed either.
- Only `stopSharing` closes links, and it closes all of them.
- `init()` calls `bindEvents` (script.js:73), which the class does not define,
  so it throws right after `initSocket` has registered the socket handlers
  (script.js:72). The session handlers therefore work, but
  `checkBrowserSupport`, `hideLoadingScreen` and `updateStats`
  (script.js:74-76) never run from `init()`, and no notification is shown at
  start.
- `setMode` calls `updateModeUI` (script.js:902), which is not defined either,
  so it throws after setting the mode, storing it and rewriting the URL
  (script.js:892-900). The socket is not restarted and no notification is
  shown.
- `updateStats` returns at once because `this.stream` is never assigned
  (script.js:4, 560). The quality bands are therefore never shown. They are
  modelled as the pure classification `QualityBand`.

## Model

| member | source | states |
|---|---|---|
| Protocol.Truthy | server.js:37-49 | The test `if (targetSocketId)` of the three relay handlers: undefined, null, false, 0 and the empty string are falsy; true, a non-zero number, a non-empty string and every object are truthy |
| Protocol.SignalEmit | script.js:192-238 | Definition: `socket.emit(kind, payload, target)`, the emit named after its message kind with the payload and the target id as its two arguments |
| Protocol.SignalEmitArgs | script.js:192-238 | A directed client emit carries the name of its kind and has two arguments, and the handler's positional parameters recover the payload and the target id from them |
| Protocol.JoinRoomEmit | script.js:123 | The client's join-room emit carries three arguments: the room id, the user id and the mode, in that order |
| Relay.FanOutDeliveries | server.js:29 | One emit to a set of sockets gives every member of the set one delivery of the event and gives nobody else anything |
| Relay.FanOutTail | server.js:29 | Removing the first delivery of a fan-out leaves a fan-out to the remaining recipients |
| Relay.FanOutLength | server.js:29 | A fan-out has exactly as many deliveries as recipients |
| Relay.FanOutInbox | server.js:29 | A recipient of a fan-out receives the event exactly once; any other socket receives nothing |
| Relay.InboxConcat | server.js:29-32 | What a socket receives from two emits in a row is what it receives from the first, then from the second |
| Relay.SignalingServer.constructor | server.js:22 | The relay starts with no sockets and an empty outbox |
| Relay.SignalingServer.Connect | server.js:22 | A new connection is a fresh socket that is in its own room only; nothing is emitted |
| Relay.RoomMembers | server.js:38 | Definition: `io.to(room)` is the set of connected sockets whose room set contains the room |
| Relay.RoomPeers | server.js:29 | The room peers of a sender are exactly the room's members other than the sender; the sender is never among them |
| Relay.JoinBinding | server.js:25 | The join-room handler binds its first argument as the room id and its second as the mode; each missing one is undefined |
| Relay.SignalingServer.JoinRoom | server.js:25-33 | The sender joins the room and keeps its other rooms; the other room members get user-joined(sender, mode); then the sender gets joined-success(roomId, sender); earlier deliveries are kept |
| Relay.JoinRoomInbox | server.js:25-33 | After a join, the joiner gets exactly one joined-success and no user-joined; every other member of the room gets exactly one user-joined carrying the sender's id and the bound mode; sockets outside the room get nothing |
| Relay.SignalRecipients | server.js:37-38 | A falsy target reaches nobody; a truthy target reaches exactly the connected sockets in the room of that name; the payload plays no part in routing |
| Relay.SignalingServer.OnSignal | server.js:36-52 | offer, answer and ice-candidate forward the same kind and the unchanged payload, stamped with the sender's id, to the target's room; a falsy target leaves the outbox unchanged; membership is unchanged |
| Relay.SignalInbox | server.js:36-52 | For a relayed message, each socket in the target's room gets it once with kind, payload and sender id intact; every other socket gets nothing; a falsy target produces no delivery |
| Relay.SignalToSocket | server.js:38 | Targeting a socket id that no other socket joined as a room reaches that socket if it is connected, and nobody otherwise |
| Relay.SignalToSocketIsOneDelivery | server.js:36-52 | A directed message to such a socket id is exactly one delivery, to that socket, with the unchanged payload and the sender's id; it is none when the target is gone |
| Relay.SignalingServer.Disconnect | server.js:54-57 | Disconnect removes the socket from all its rooms and emits nothing |
| Relay.SignalingServer.Receive | server.js:25-52 | An incoming client emit runs the handler registered under its name, with parameters bound by position (missing ones are undefined); an unknown name changes nothing |
| Client.CurrentMode | script.js:11 | The mode is the non-empty URL mode, else the non-empty stored mode, else 'viewer'; it is never empty, and it is not checked against the two role names |
| Client.GenerateRoomId | script.js:65-67 | A generated room id is 'room_' followed by the random digits |
| Client.RoomIdFromUrl | script.js:48-62 | A non-empty room URL parameter is returned unchanged; otherwise the id is a generated one beginning with 'room_' |
| Client.GenerateUserId | script.js:848-850 | A generated user id begins with 'Kullanıcı_' |
| Client.GetVideoConstraints | script.js:472-488 | high gives 1920x1080, medium 1280x720 and low 854x480; any other quality name gives no size; the ideal frame rate is the setting passed in unchanged; surface is monitor and cursor is always |
| Client.GetNotificationIcon | script.js:637-645 | success, error and warning map to their own icons; every other type maps to 'info-circle'; the result is always one of the four icons |
| Client.QualityBand | script.js:575-587 | The bar is 100, 75, 50 or 25 percent; each level is reached exactly when one of its own or a higher band's thresholds is met, so the first matching band wins |
| Client.QualityBandMonotone | script.js:575-587 | A higher frame rate and a lower latency never give a lower band |
| Client.SimulatedStatsNeverPoor | script.js:563-587 | With the simulated ranges (frame rate 20 to 49, latency 50 to 249) the 25 percent band never appears |
| Client.ConnectsToBroadcaster | script.js:93 | Definition: the viewer-side branch fires exactly when the announced mode is the string 'broadcaster' and the local mode is 'viewer' |
| Client.AnnouncesViewer | script.js:98 | Definition: the broadcaster-side branch fires exactly when the announced mode is the string 'viewer', the local mode is 'broadcaster' and sharing is on |
| Client.DispatchExclusive | script.js:93-100 | The two user-joined branches never both fire; a mode other than 'broadcaster' or 'viewer' fires neither |
| Client.PeerLink.constructor | script.js:170-175 | A new peer connection has no descriptions, is open, and has no tracks and no candidates |
| Client.PeerLink.SetLocalDescription | script.js:198 | Only the local description changes |
| Client.PeerLink.SetRemoteDescription | script.js:235 | Only the remote description changes |
| Client.PeerLink.AddTrack | script.js:225 | The track is appended to the link's tracks; nothing else changes |
| Client.PeerLink.AddIceCandidate | script.js:258 | The candidate is appended to the applied candidates; nothing else changes |
| Client.PeerLink.Close | script.js:324 | Only the closed flag changes, and it is set |
| Client.AttachTracks | script.js:224-226 | Every track of the stream is added to the link once, in order |
| Client.AttachToAll | script.js:298-302 | Every link of the table gets every track of the stream appended once; nothing else in the links changes |
| Client.CloseAll | script.js:324 | Every link of the table is closed; nothing else in the links changes |
| Client.ScreenShareApp.constructor | script.js:3-44 | Initial state: mode from the fallback, room id from the URL or generated, a generated user id, not sharing, audio off, video on, no stream, empty link table, nothing sent and no notification (init() throws at the undefined bindEvents before checkBrowserSupport) |
| Client.ScreenShareApp.JoinRoom | script.js:121-124 | Emits join-room(roomId, userId, currentMode) with three arguments; nothing else changes |
| Client.ScreenShareApp.OnUserJoined | script.js:89-101 | A broadcaster announced to a viewer runs handleBroadcasterJoined; a viewer announced to a sharing broadcaster adds one new-viewer notification; every other combination changes nothing |
| Client.ScreenShareApp.HandleBroadcasterJoined | script.js:163-205 | Outside viewer mode, nothing changes. Otherwise a new link replaces any under that id, other entries stay, and the link holds the created offer as its local description. The offer is sent to the broadcaster; a failure only adds an error notification |
| Client.ScreenShareApp.HandleOffer | script.js:208-244 | Outside broadcaster mode, or with no local stream, nothing changes. Otherwise a new link replaces any under the sender's id and carries every local track. It holds the offer and the answer, and the answer is sent to the sender. On failure the link stays in the table and only an error notification is added |
| Client.ScreenShareApp.HandleAnswer | script.js:247-252 | Only the existing link for the sender gets the answer as its remote description; with no such link, the table and every link are unchanged |
| Client.ScreenShareApp.HandleIceCandidate | script.js:255-260 | Only the existing link for the sender gets the candidate appended; with no such link, the table and every link are unchanged |
| Client.ScreenShareApp.OnLocalCandidate | script.js:190-194 | A truthy gathered candidate is sent as ice-candidate to the link's remote id; a null candidate sends nothing |
| Client.ScreenShareApp.OnRemoteTrack | script.js:180-187 | Each ontrack event (one per remote track) sets isSharing and adds one success notification; nothing else changes |
| Client.ScreenShareApp.StartSharing | script.js:262-315 | Outside broadcaster mode, or when capture fails, only an error notification is added. Otherwise the stream is stored, audio is on iff it has an audio track, sharing is on, and every existing link gets every track once. A stream without a video track ends in an error notification |
| Client.ScreenShareApp.StopSharing | script.js:317-338 | Every link that was in the table is closed; the table is empty; there is no stream; sharing and audio are off and video is on; one notification is added |
| Handshake.AnnouncedModeIsUserId | server.js:25-29 | As written, the client's three-argument join-room makes the server announce the client's user id in the mode slot |
| Handshake.UserIdIsNoRole | script.js:93-98 | A generated user id is neither 'broadcaster' nor 'viewer', so no dispatch branch fires on it |
| Handshake.AsWrittenViewerIgnoresBroadcaster | server.js:25-29 | As written, a viewer in the room receives user-joined carrying the broadcaster's user id, and its dispatch does not open a link |
| Handshake.CorrectedJoinBinding | server.js:25 | The corrected handler binds the first argument as the room id and the third as the mode; each missing one is undefined |
| Handshake.CorrectedAnnouncesMode | server.js:25 | With the corrected binding, the server announces exactly the room and the mode the client sent |
| Handshake.CorrectedViewerConnects | server.js:25-29 | With the corrected binding, a waiting viewer receives user-joined(b, 'broadcaster') and its dispatch opens a link to b |
| Handshake.SignalEmitDelivered | script.js:199 | A client's offer, answer or candidate emit, bound by the server handler, reaches exactly the targeted connected socket with the payload unchanged |

## Findings

| source | as written | input that shows it | evidently intended | confidence | as-written member | corrected member |
|---|---|---|---|---|---|---|
| server.js:25 | The handler binds `(roomId, mode)`, but the client emits `join-room(roomId, userId, mode)` (script.js:123). `user-joined` therefore carries the client's user id where the mode belongs. | A broadcaster with user id `Kullanıcı_ab12` joins room `r1`, where a viewer is waiting. The viewer receives `user-joined(id, 'Kullanıcı_ab12')`, and neither dispatch branch fires. No link is opened, and no offer is ever sent. | The server announces the joiner's mode (the handler binds `(roomId, userId, mode)`). A viewer then receives `user-joined(id, 'broadcaster')` and starts the offer. | high; not executed | Handshake.AsWrittenViewerIgnoresBroadcaster | Handshake.CorrectedViewerConnects |

The class methods (`Relay.SignalingServer.JoinRoom`, `Receive` and
`Client.ScreenShareApp.JoinRoom`) model the code as written. The corrected
binding is `Handshake.CorrectedJoinBinding`. The corrected end-to-end property
is proved about it in `Handshake.CorrectedViewerConnects`.

## Left out

- Transport and serving: the socket.io transport, the connection lifecycle,
  Express static files, CORS and the listen port (server.js:1-19, 60-63). I/O
  and library plumbing; `Connect` stands for the new-connection event.
- Relay.SignalingServer.JoinRoom: `socket.to(room)` excludes only the sender.
  socket.io 4 excludes every socket in the room named after the sender's id.
  The two differ only when some socket has joined a room named after another
  socket's id.
- JavaScript values: numbers are integers, so NaN and -0 are not modelled.
  Objects are opaque handles. Property lookups that hit `Object.prototype` are
  not modelled: `icons['constructor']`, `qualitySettings['toString']` and
  `peerConnections['constructor']`.
- RTCPeerConnection internals: SDP creation and validation, ICE gathering and
  the STUN configuration (script.js:170-175, 214-219). Descriptions are opaque
  values, and whether the browser accepts them is a parameter.
- Interleaving of the `async` handlers: each handler is one step. When it
  resolves, the viewer's `ontrack` callback is `OnRemoteTrack`, and
  `onicecandidate` is `OnLocalCandidate`.
- Media capture: `getDisplayMedia` is the `capture` parameter of
  `StartSharing`. Left out are `track.stop()` in `stopSharing`, waiting for
  `onloadedmetadata`, the `onended` hook that calls `stopSharing`, and the
  `srcObject` assignments (script.js:273-291, 304-306, 319, 327-328). These are
  browser media APIs.
- All DOM and presentation code, covering script.js:368-470, 490-527 and
  590-846: `updateUI`, the buttons, the settings modal, the status overlay,
  chat and voice, full screen, keyboard and resize handlers, the loading
  screen, the service worker and touch handlers (script.js:922-951). The
  message text of notifications is also left out: a `Notice` names which
  notification was shown.
- The random numbers behind the statistics and the ids (script.js:65-67,
  563-565, 848-850). The digits are parameters; the statistics only enter
  `SimulatedStatsNeverPoor` as ranges.
- `playNotificationSound` (script.js:852-870): Web Audio with floating-point
  ramps.
- `localStorage`, JSON settings persistence, and rewriting the URL and the
  history (script.js:55-59, 510-531, 879-900). This is I/O; the URL and stored
  values are parameters.
- Client.ScreenShareApp.constructor: of `init()` (script.js:69-77) only the
  effect on the session state is modelled. `loadSettings` reads
  `localStorage`, and `initSocket` opens the transport and registers the
  handlers (modelled one by one). Then the call to the undefined `bindEvents`
  throws, so no later step of `init()` runs.
- `setMode` (script.js:891-919): as written it sets the mode, stores it in
  `localStorage` and rewrites the URL (script.js:892-900), then throws at the
  undefined `updateModeUI` (script.js:902). It leaves the link table and the
  local stream in place, so links already open survive a mode switch. It is
  left out because what runs is storage and URL work around one field
  assignment.
- `toggleAudio` and `toggleVideo` (script.js:340-366) read `this.stream`,
  which is never assigned. They always return at once.
- The `disconnect` handler of the client (script.js:115-117) only logs.
