# WebRTC signalling: browser client and relay consumer

This project models the signalling logic of a two-part WebRTC application and
proves properties of that model in Dafny.

- **The browser signalling client** (`static/js/app.js`, module `Client` in
  `client.dfy`). The module-level variables `joined`, `pc`, `otherId`,
  `localStream` and the FIFO `pendingRemoteCandidates` become the fields of
  the class `SignalingClient`. The `RTCPeerConnection` is an opaque record
  (`PeerConn`). It says whether a remote description is set, whether the
  signalling state is `stable`, and which candidates the connection accepted.
  Every call the client makes into the browser is appended, in order, to the
  effect log `effects`. These calls are peer-connection operations, media
  requests and release, socket connection (including the one `connectWS()`
  starts at page load) and `send`. Whether the browser
  accepts a candidate is a parameter `accepts`. The SDP the browser generates
  is a parameter `localSdp`. The `ws.onmessage` dispatcher is
  `SignalingClient.Receive`, with one method per message type.
- **The relay consumer** (`webrtc/consumers.py`, module `Relay` in
  `relay.dfy`). Each WebSocket connection is a `SignalingConsumer` with
  `roomId`, `group`, `peerId` and an outbox that models `send_json`. The
  channel layer is a `ChannelLayer` holding the group table, a map from group
  name to a set of consumers. `group_send` is a synchronous loop over the
  group's members that runs each member's handler. The per-recipient
  delivery rules of `peer_joined`, `peer_left` and `signal_message` are the
  pure function `Deliver`.

The model follows the code. The code assigns no roles, has no two-member room
limit and never replies `room_full`. A room is simply a Channels group that
every `join` adds to. Every `join` is announced to the group. Whichever
already-joined client receives `peer_joined` makes the offer. There are no
`role` or `peer_ready` messages and no shared validation layer. The glare
policy and the lifecycle states `idle`/`connecting`/`connected`/`closed` do
not exist in the code either. The model has none of these.

Properties proved:
- Candidates are buffered until a remote description exists.
- The buffer is drained in arrival order, one attempt per candidate. A
  rejected candidate is skipped and does not stop the drain.
- A flush always happens before the answer is created.
- Messages echoed from the client itself change nothing.
- Teardown leaves no peer connection, no partner and an empty queue.
- `send` stamps `roomId` and `peerId`, and its `to` defaults to the partner.
- A client that is not joined holds no peer connection, no partner and no
  buffered candidate. Candidates are only ever buffered while a peer
  connection without a remote description exists. These two facts are
  `SignalingClient.Valid`, established at page load and kept by `Join`,
  `Leave`, `OnSocketClose`, `Receive` and every message handler.
- The relay never echoes a message to its sender. A relayed message reaches
  exactly the group members it is addressed to, other than the sender.
- `join` only ever adds to the group table. `leave` changes no membership.
  `disconnect` removes the consumer only from its current group.

## Model

| member | source | states |
|---|---|---|
| Client.RoomIdFrom | static/js/app.js:12 | the room id is the `room` query parameter when it is non-empty, otherwise "webrtc", so it is never empty |
| Client.Payload | static/js/app.js:100-106 | an emitted payload carries the client's `roomId` and `peerId = myId` and the given body; an explicit `to` is kept, a missing or empty `to` becomes the current partner when there is one, and stays unset otherwise |
| Client.Attempts | static/js/app.js:160-165 | draining a queue makes exactly one apply attempt per buffered candidate |
| Client.Accepted | static/js/app.js:160-165 | the candidates that end up applied are never more than were buffered |
| Client.AttemptsAppend | static/js/app.js:160-165 | draining a queue built in two parts makes the attempts of the first part followed by those of the second |
| Client.AcceptedAppend | static/js/app.js:160-165 | the candidates applied from a queue built in two parts are those of the first part followed by those of the second |
| Client.DrainStep | static/js/app.js:161-163 | one iteration of the drain adds one attempt on the next buffered candidate, and adds that candidate to the applied ones exactly when it is accepted |
| Client.AttemptsInArrivalOrder | static/js/app.js:160-165 | the i-th attempt of a drain is on the i-th buffered candidate, whatever the earlier attempts returned: FIFO order, and a failure is skipped, not fatal |
| Client.AcceptedExactly | static/js/app.js:160-165 | a candidate ends up applied exactly when it was buffered and the peer connection accepts it: nothing buffered and acceptable is dropped |
| Client.AcceptedAllInOrder | static/js/app.js:160-165 | when every apply succeeds, the applied candidates are the whole queue in arrival order |
| Client.SignalingClient.constructor | static/js/app.js:11-20 | at page load the client is not joined, has no socket open, no peer connection, no partner, no local stream and an empty queue, and the only effect so far is the socket connection that `connectWS()` starts (line 250) |
| Client.SignalingClient.OnSocketOpen | static/js/app.js:31-34 | opening the socket only marks it open |
| Client.SignalingClient.Send | static/js/app.js:100-106 | nothing is emitted unless the socket is open; otherwise exactly the stamped payload is emitted |
| Client.SignalingClient.EnsurePeerConnection | static/js/app.js:109-158 | idempotent once a peer connection exists; otherwise creates a fresh one and attaches the local tracks only when a local stream is present |
| Client.SignalingClient.FlushPendingCandidates | static/js/app.js:160-165 | leaves the queue empty, attempts every buffered candidate in FIFO order and adds exactly the accepted ones, in order, to the peer connection |
| Client.SignalingClient.CreateOffer | static/js/app.js:167-173 | ensures a peer connection, creates and sets the local offer (leaving `stable`), then sends the offer addressed to the current partner |
| Client.SignalingClient.TeardownPeer | static/js/app.js:212-227 | afterwards there is no peer connection, no partner and an empty queue; an existing connection is closed; the local stream is stopped and cleared only when `stopMedia` is true |
| Client.SignalingClient.OnSocketClose | static/js/app.js:96 | socket closure tears down the peer without stopping local media |
| Client.SignalingClient.Join | static/js/app.js:175-198 | reconnects a socket that is not open and always asks for media; if media is refused nothing else changes; otherwise the client holds a local stream, is joined, sends `join` and holds a peer connection |
| Client.SignalingClient.Leave | static/js/app.js:200-210 | sends `leave` to the current partner, tears down with media stopped, and leaves the client not joined with no peer connection, no partner and an empty queue |
| Client.SignalingClient.OnLocalCandidate | static/js/app.js:141-145 | a locally gathered candidate is sent, addressed to the partner by default, only while a peer connection exists |
| Client.SignalingClient.OnPeerJoined | static/js/app.js:45-52 | only a joined client reacts, and only to a non-empty peer id other than its own: it adopts that peer as partner and sends it an offer; otherwise nothing changes |
| Client.SignalingClient.OnOffer | static/js/app.js:59-70 | a client that is not joined changes nothing; a joined one makes the sender its partner, sets the remote description, drains the queue, and only then creates, sets and sends an answer addressed to the sender |
| Client.SignalingClient.OnAnswer | static/js/app.js:72-78 | the answer is set as remote description and the queue drained only when a peer connection exists outside `stable`; otherwise nothing changes |
| Client.SignalingClient.OnCandidate | static/js/app.js:80-92 | a candidate is ignored without a peer connection, without a payload, or when it cannot be constructed; before a remote description it is appended to the back of the queue and not applied; afterwards it is attempted directly and the queue is untouched |
| Client.SignalingClient.Receive | static/js/app.js:36-95 | an inbound message whose `from` is the client's own id changes nothing and causes no effect, and neither does `join_ack` or an unknown type; each other type has exactly the outcome of its handler, with `peer_left` tearing down without stopping media |
| Client.CandidatesBeforeAnswer | static/js/app.js:45-92 | three candidates received after making an offer and before the answer are buffered in order, and once the answer arrives the applied ones are exactly those accepted, in arrival order |
| Relay.GroupNameInjective | webrtc/consumers.py:36 | two different string room ids never share a group name |
| Relay.NullRoomSharesGroup | webrtc/consumers.py:34-36 | a `join` with `roomId` JSON `null` keeps `None` as the room and lands in the same group as the room named "None" |
| Relay.Stamp | webrtc/consumers.py:63 | a relayed message carries `from` equal to the sender's peer id and keeps every other field |
| Relay.Deliver | webrtc/consumers.py:71-89 | a peer notice is forwarded exactly when it is about a peer id other than the recipient's; a relayed message is delivered exactly when its `to` is unset or equals the recipient's peer id and its `from` differs from it |
| Relay.NeverEchoes | webrtc/consumers.py:80-89 | a message stamped with a sender is never delivered to that sender's peer id |
| Relay.Recipients | webrtc/consumers.py:58-89 | among any set of peer ids, a relayed message reaches everyone but the sender when `to` is unset, and only the addressee (if it is not the sender) when `to` is set |
| Relay.ChannelLayer.GroupAdd | webrtc/consumers.py:38 | adds the consumer to the group, leaving every other group as it was |
| Relay.ChannelLayer.GroupDiscard | webrtc/consumers.py:28 | removes the consumer from the group, leaving every other group as it was |
| Relay.ChannelLayer.GroupSend | webrtc/consumers.py:44-47 | every member of the group receives, in its own outbox, exactly what its delivery rule gives for the event; the members' room, group and peer id are unchanged |
| Relay.SignalingConsumer.Connect | webrtc/consumers.py:15-19 | a new connection has no room, group or peer id and an empty outbox |
| Relay.SignalingConsumer.PeerJoined | webrtc/consumers.py:71-74 | `peer_joined` is forwarded to the client exactly when the joiner's peer id differs from the recipient's |
| Relay.SignalingConsumer.PeerLeft | webrtc/consumers.py:76-78 | `peer_left` is forwarded to the client exactly when the leaver's peer id differs from the recipient's |
| Relay.SignalingConsumer.SignalMessage | webrtc/consumers.py:80-89 | a relayed message is forwarded exactly when it is addressed to the recipient and does not come from it |
| Relay.SignalingConsumer.Handle | webrtc/consumers.py:69-89 | the handler for an event appends exactly the event's delivery to the outbox |
| Relay.SignalingConsumer.Disconnect | webrtc/consumers.py:21-28 | without a group no group and no consumer changes; with one, `peer_left` reaches the group when the peer id is set, and the consumer leaves that group only; the connection's own fields are unchanged |
| Relay.SignalingConsumer.ReceiveJson | webrtc/consumers.py:30-67 | `join` sets the room (default "webrtc"), the peer id and the group `room_<room>`, only adds the consumer to that group, acks the joiner alone and announces it to the others; `leave` announces departure when group and peer id are set and changes no state; any other message is dropped without group or peer id, and otherwise stamped with `from` and fanned out, never back to the sender |
| Relay.TwoPeersRelayOffer | webrtc/consumers.py:30-89 | after peers A and B join the same room and A relays an unaddressed offer, A has its ack and news of B's joining, and B has its ack and the offer stamped with A |
| Relay.RejoinThenDisconnect | webrtc/consumers.py:21-38 | a consumer that joins a second room stays in the first room's group, and disconnecting removes it only from the second |

## Left out

- The DOM, the buttons, status text, `toggleMute` and `toggleCamera`: user interface only.
- `getUserMedia`, the video elements and `ontrack`: media capture and rendering. The local stream is present or absent, and refused media is the `mediaGranted` parameter of `Join`.
- The ICE/TURN server configuration and the state-change debug logs of `RTCPeerConnection`: browser configuration and logging.
- WebSocket construction, `onerror` and the 150 ms wait in `join`: whether the socket is open after the wait is the `openAfterWait` parameter of `Join`.
- Interleaving at `await` points. Each client handler and each consumer handler runs as one atomic step. The browser can start another `onmessage` handler while one is suspended, and the model does not capture what that interleaving can do.
- Rejection of `setRemoteDescription`, `createOffer`, `createAnswer` and `setLocalDescription`. These are modelled as always succeeding. In the code such a rejection abandons the rest of the handler. Only `addIceCandidate` failure is modelled, through `accepts`.
- The signalling-state check that a browser applies to `setRemoteDescription`, such as an offer arriving in `have-local-offer`. The model applies the description as the code asks.
- Relay.GroupNameInjective: only string room ids are distinct from each other's group names; a `null` room id shares the group of the room "None" (`NullRoomSharesGroup`), because the code renders `None` into the name.
- JSON values other than strings and `null` in the fields the relay reads (`type`, `roomId`, `peerId`, `to`, `from`). Python's `str()` of such a value in the group name is not modelled. Channels' validation of group names is not modelled either.
- The Django Channels and Redis transport: delivery is synchronous and in-process, group expiry does not exist, and disconnection is delivered as the `Disconnect` call.
- `webrtc/urls.py`, `webrtc/asgi.py` and `webrtc/routing.py`: routing and bootstrapping with no signalling logic.
