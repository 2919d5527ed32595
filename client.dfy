/**
 * The browser signalling client (static/js/app.js) as a message-driven state
 * machine. The DOM, the camera and the RTCPeerConnection are abstracted away:
 * the peer connection is an opaque record, and every call the client makes
 * into the browser (peer connection, media, socket) is appended to an effect
 * log so that contracts can state what happened and in which order.
 */
module Client {

  datatype Option<T> = None | Some(value: T)

  /** JavaScript truthiness of an optional string: `undefined`, `null` and `""` are falsy. */
  predicate Truthy(s: Option<string>) {
    s.Some? && s.value != ""
  }

  /** The `RTCIceCandidateInit` dictionary carried by a `candidate` message. */
  datatype CandidateInit = CandidateInit(candidate: string, sdpMid: Option<string>, sdpMLineIndex: Option<nat>)

  /**
   * `new RTCIceCandidate(init)` throws a TypeError when both `sdpMid` and
   * `sdpMLineIndex` are null (the RTCIceCandidate constructor of the W3C
   * WebRTC specification); the client catches it and drops the candidate.
   */
  predicate Constructible(c: CandidateInit) {
    c.sdpMid.Some? || c.sdpMLineIndex.Some?
  }

  datatype SdpType = OfferSdp | AnswerSdp

  /**
   * The opaque peer connection: whether a remote description has been set,
   * whether its signalling state is `stable`, and the candidates it accepted.
   */
  datatype PeerConn = PeerConn(hasRemoteDescription: bool, signalingStable: bool, applied: seq<CandidateInit>)
  {
    /** `setRemoteDescription`: an offer leaves `have-remote-offer`, an answer returns to `stable`. */
    function WithRemote(t: SdpType): PeerConn {
      this.(hasRemoteDescription := true, signalingStable := t == AnswerSdp)
    }

    /** `setLocalDescription`: an offer leaves `have-local-offer`, an answer returns to `stable`. */
    function WithLocal(t: SdpType): PeerConn {
      this.(signalingStable := t == AnswerSdp)
    }
  }

  /** A newly constructed RTCPeerConnection. */
  const FreshPeerConn := PeerConn(false, true, [])

  /**
   * The `type` of an inbound message. `OtherKind(name)` stands for any type
   * the dispatcher has no case for: its `name` is none of "join_ack",
   * "peer_joined", "peer_left", "offer", "answer" and "candidate", which
   * are the other constructors (see `KnownKindName`).
   */
  datatype Kind = JoinAck | PeerJoined | PeerLeft | Offer | Answer | Candidate | OtherKind(name: string)

  /** The type names the dispatcher has a case for. */
  predicate KnownKindName(name: string) {
    name in {"join_ack", "peer_joined", "peer_left", "offer", "answer", "candidate"}
  }

  /** A `Kind` is well formed when `OtherKind` does not spell one of the known types. */
  predicate WellFormedKind(k: Kind) {
    k.OtherKind? ==> !KnownKindName(k.name)
  }

  /** An inbound message as parsed by `ws.onmessage`, with the fields the dispatcher reads. */
  datatype Inbound = Inbound(kind: Kind, from: Option<string>, peerId: Option<string>, sdp: string, candidate: Option<CandidateInit>)

  /** The object handed to `send`. */
  datatype Body = JoinRequest | LeaveRequest | OfferBody(sdp: string) | AnswerBody(sdp: string) | CandidateBody(candidate: CandidateInit)

  /** The payload `send` serialises: `{ roomId, peerId, ...obj }` with `to` filled in. */
  datatype Outbound = Outbound(roomId: string, peerId: string, body: Body, to: Option<string>)

  /** The calls the client makes into the browser, in the order it makes them. */
  datatype Effect =
    | SocketConnect
    | MediaAcquire
    | MediaStop
    | PcCreate
    | PcAddTracks
    | PcCreateOffer
    | PcCreateAnswer
    | PcSetLocal(sdpType: SdpType, sdp: string)
    | PcSetRemote(sdpType: SdpType, sdp: string)
    | PcAddCandidate(candidate: CandidateInit, accepted: bool)
    | PcClose
    | SocketSend(msg: Outbound)

  /** An inbound message echoed from this client itself. */
  predicate Suppressed(msg: Inbound, myId: string) {
    Truthy(msg.from) && msg.from.value == myId
  }

  /** The room id: the `room` query parameter, or "webrtc" when it is absent or empty. */
  function RoomIdFrom(roomParam: Option<string>): (r: string)
    ensures r != ""
    ensures Truthy(roomParam) ==> r == roomParam.value
  {
    if Truthy(roomParam) then roomParam.value else "webrtc"
  }

  /** The payload `send` emits for `obj` while the current partner is `otherId`. */
  function Payload(roomId: string, myId: string, otherId: Option<string>, body: Body, to: Option<string>): (r: Outbound)
    ensures r.roomId == roomId && r.peerId == myId && r.body == body
    ensures Truthy(to) ==> r.to == to
    ensures !Truthy(to) && Truthy(otherId) ==> r.to == otherId
    ensures !Truthy(to) && !Truthy(otherId) ==> !Truthy(r.to)
  {
    Outbound(roomId, myId, body, if !Truthy(to) && Truthy(otherId) then otherId else to)
  }

  /** What `send` logs: the payload when the socket is open, nothing otherwise. */
  function SendEffects(open: bool, msg: Outbound): seq<Effect> {
    if open then [SocketSend(msg)] else []
  }

  /** What `ensurePeerConnection` logs. */
  function EnsureEffects(pc: Option<PeerConn>, hasLocalStream: bool): seq<Effect> {
    if pc.Some? then [] else [PcCreate] + (if hasLocalStream then [PcAddTracks] else [])
  }

  /** The peer connection after `ensurePeerConnection`. */
  function Ensured(pc: Option<PeerConn>): PeerConn {
    if pc.Some? then pc.value else FreshPeerConn
  }

  /** The attempts `flushPendingCandidates` makes on the queue `cs`, one per candidate, in order. */
  function Attempts(cs: seq<CandidateInit>, accepts: CandidateInit -> bool): (r: seq<Effect>)
    ensures |r| == |cs|
  {
    if cs == [] then [] else [PcAddCandidate(cs[0], accepts(cs[0]))] + Attempts(cs[1..], accepts)
  }

  /** The candidates of the queue `cs` that the peer connection accepts, in queue order. */
  function Accepted(cs: seq<CandidateInit>, accepts: CandidateInit -> bool): (r: seq<CandidateInit>)
    ensures |r| <= |cs|
  {
    if cs == [] then []
    else (if accepts(cs[0]) then [cs[0]] else []) + Accepted(cs[1..], accepts)
  }

  lemma {:induction false} AttemptsAppend(xs: seq<CandidateInit>, ys: seq<CandidateInit>, accepts: CandidateInit -> bool)
    ensures Attempts(xs + ys, accepts) == Attempts(xs, accepts) + Attempts(ys, accepts)
  {
    if xs != [] {
      assert (xs + ys)[1..] == xs[1..] + ys;
      AttemptsAppend(xs[1..], ys, accepts);
    } else {
      assert xs + ys == ys;
    }
  }

  lemma {:induction false} AcceptedAppend(xs: seq<CandidateInit>, ys: seq<CandidateInit>, accepts: CandidateInit -> bool)
    ensures Accepted(xs + ys, accepts) == Accepted(xs, accepts) + Accepted(ys, accepts)
  {
    if xs != [] {
      assert (xs + ys)[1..] == xs[1..] + ys;
      AcceptedAppend(xs[1..], ys, accepts);
    } else {
      assert xs + ys == ys;
    }
  }

  /** One step of the drain: the attempts and the accepted candidates grow by the next buffered candidate. */
  lemma DrainStep(queue: seq<CandidateInit>, k: nat, accepts: CandidateInit -> bool)
    requires k < |queue|
    ensures Attempts(queue[..k + 1], accepts) == Attempts(queue[..k], accepts) + [PcAddCandidate(queue[k], accepts(queue[k]))]
    ensures Accepted(queue[..k + 1], accepts) == Accepted(queue[..k], accepts) + (if accepts(queue[k]) then [queue[k]] else [])
  {
    assert queue[..k + 1] == queue[..k] + [queue[k]];
    assert [queue[k]][1..] == [];
    AttemptsAppend(queue[..k], [queue[k]], accepts);
    AcceptedAppend(queue[..k], [queue[k]], accepts);
  }

  /**
   * The drain is FIFO and never stops early: the i-th attempt is on the i-th
   * buffered candidate, whatever the outcome of the attempts before it.
   */
  lemma {:induction false} AttemptsInArrivalOrder(cs: seq<CandidateInit>, accepts: CandidateInit -> bool, i: nat)
    requires i < |cs|
    ensures Attempts(cs, accepts)[i] == PcAddCandidate(cs[i], accepts(cs[i]))
  {
    if i > 0 {
      AttemptsInArrivalOrder(cs[1..], accepts, i - 1);
    }
  }

  /** A candidate ends up applied exactly when it was buffered and the peer connection accepts it. */
  lemma {:induction false} AcceptedExactly(cs: seq<CandidateInit>, accepts: CandidateInit -> bool, c: CandidateInit)
    ensures c in Accepted(cs, accepts) <==> c in cs && accepts(c)
  {
    if cs != [] {
      AcceptedExactly(cs[1..], accepts, c);
      assert cs == [cs[0]] + cs[1..];
    }
  }

  /** When every apply succeeds, the drain applies the whole queue in arrival order. */
  lemma {:induction false} AcceptedAllInOrder(cs: seq<CandidateInit>, accepts: CandidateInit -> bool)
    requires forall i :: 0 <= i < |cs| ==> accepts(cs[i])
    ensures Accepted(cs, accepts) == cs
  {
    if cs != [] {
      AcceptedAllInOrder(cs[1..], accepts);
    }
  }

  /** The module-level state of app.js, less the DOM, the socket object and the UI flags. */
  class SignalingClient {
    const myId: string
    const roomId: string
    var socketOpen: bool
    var joined: bool
    var pc: Option<PeerConn>
    var otherId: Option<string>
    var hasLocalStream: bool
    var pending: seq<CandidateInit>
    var effects: seq<Effect>

    /**
     * Candidates are buffered only while a peer connection exists and has no
     * remote description, and a client that has not joined (or has left)
     * holds no peer connection, no partner and no buffered candidate.
     */
    ghost predicate Valid()
      reads this
    {
      (pending != [] ==> pc.Some? && !pc.value.hasRemoteDescription) &&
      (!joined ==> pc.None? && otherId.None? && pending == [])
    }

    /** The state at page load (static/js/app.js:11-20), after `connectWS()` has started connecting (line 250). */
    constructor (myId: string, roomParam: Option<string>)
      ensures Valid()
      ensures this.myId == myId && roomId == RoomIdFrom(roomParam)
      ensures !socketOpen && !joined && pc == None && otherId == None
      ensures !hasLocalStream && pending == [] && effects == [SocketConnect]
    {
      this.myId := myId;
      roomId := RoomIdFrom(roomParam);
      socketOpen := false;
      joined := false;
      pc := None;
      otherId := None;
      hasLocalStream := false;
      pending := [];
      effects := [SocketConnect];
    }

    /** `ws.onopen`. */
    method OnSocketOpen()
      modifies this`socketOpen
      ensures socketOpen
    {
      socketOpen := true;
    }

    /** `send(obj)`: nothing unless the socket is open; otherwise the stamped payload. */
    method Send(body: Body, to: Option<string>)
      modifies this`effects
      ensures effects == old(effects) + SendEffects(socketOpen, Payload(roomId, myId, otherId, body, to))
    {
      if socketOpen {
        var payload := Outbound(roomId, myId, body, to);
        if !Truthy(payload.to) && Truthy(otherId) {
          payload := payload.(to := otherId);
        }
        effects := effects + [SocketSend(payload)];
      }
    }

    /** `ensurePeerConnection`: does nothing once a peer connection exists. */
    method EnsurePeerConnection()
      modifies this`pc, this`effects
      ensures old(pc).Some? ==> pc == old(pc) && effects == old(effects)
      ensures pc == Some(Ensured(old(pc)))
      ensures effects == old(effects) + EnsureEffects(old(pc), hasLocalStream)
    {
      if pc.Some? {
        return;
      }
      pc := Some(FreshPeerConn);
      effects := effects + [PcCreate];
      if hasLocalStream {
        effects := effects + [PcAddTracks];
      }
    }

    /**
     * `flushPendingCandidates`: drains the queue front first; every candidate
     * is attempted, and one the peer connection rejects is skipped.
     */
    method FlushPendingCandidates(accepts: CandidateInit -> bool)
      requires pc.Some?
      modifies this`pc, this`pending, this`effects
      ensures pending == []
      ensures pc == Some(old(pc).value.(applied := old(pc).value.applied + Accepted(old(pending), accepts)))
      ensures effects == old(effects) + Attempts(old(pending), accepts)
    {
      ghost var queue := pending;
      ghost var base := pc.value;
      ghost var k := 0;
      assert queue[..0] == [];
      while pending != []
        invariant 0 <= k <= |queue| && pending == queue[k..]
        invariant pc.Some? && pc.value.hasRemoteDescription == base.hasRemoteDescription
        invariant pc.value.signalingStable == base.signalingStable
        invariant pc.value.applied == base.applied + Accepted(queue[..k], accepts)
        invariant effects == old(effects) + Attempts(queue[..k], accepts)
        decreases |pending|
      {
        DrainStep(queue, k, accepts);
        var c := pending[0];
        pending := pending[1..];
        var ok := accepts(c);
        effects := effects + [PcAddCandidate(c, ok)];
        if ok {
          pc := Some(pc.value.(applied := pc.value.applied + [c]));
        }
        k := k + 1;
      }
      assert queue[..k] == queue;
    }

    /** `createOffer`: the browser's offer is `localSdp`; it is sent to the current partner. */
    method CreateOffer(localSdp: string)
      modifies this`pc, this`effects
      ensures pc == Some(Ensured(old(pc)).WithLocal(OfferSdp))
      ensures effects == old(effects) + EnsureEffects(old(pc), hasLocalStream)
                         + [PcCreateOffer, PcSetLocal(OfferSdp, localSdp)]
                         + SendEffects(socketOpen, Payload(roomId, myId, otherId, OfferBody(localSdp), otherId))
    {
      EnsurePeerConnection();
      effects := effects + [PcCreateOffer];
      pc := Some(pc.value.WithLocal(OfferSdp));
      effects := effects + [PcSetLocal(OfferSdp, localSdp)];
      Send(OfferBody(localSdp), otherId);
    }

    /**
     * `teardownPeer(stopMedia)`: closes and drops the peer connection, forgets
     * the partner, empties the queue, and stops local media only on request.
     */
    method TeardownPeer(stopMedia: bool)
      modifies this`pc, this`hasLocalStream, this`otherId, this`pending, this`effects
      ensures pc == None && otherId == None && pending == []
      ensures hasLocalStream == (old(hasLocalStream) && !stopMedia)
      ensures effects == old(effects) + (if old(pc).Some? then [PcClose] else [])
                         + (if stopMedia && old(hasLocalStream) then [MediaStop] else [])
    {
      if pc.Some? {
        effects := effects + [PcClose];
        pc := None;
      }
      if stopMedia && hasLocalStream {
        effects := effects + [MediaStop];
        hasLocalStream := false;
      }
      otherId := None;
      pending := [];
    }

    /** `ws.onclose`: the socket is gone and the peer is torn down, keeping local media. */
    method OnSocketClose()
      requires Valid()
      modifies this`socketOpen, this`pc, this`hasLocalStream, this`otherId, this`pending, this`effects
      ensures Valid()
      ensures !socketOpen && pc == None && otherId == None && pending == []
      ensures hasLocalStream == old(hasLocalStream)
      ensures effects == old(effects) + (if old(pc).Some? then [PcClose] else [])
    {
      socketOpen := false;
      TeardownPeer(false);
    }

    /**
     * `join`: reconnects the socket when it is not open (`openAfterWait` says
     * whether it is open after the wait), then asks for media; when media is
     * refused nothing else happens, otherwise the client is joined, announces
     * itself and makes sure a peer connection exists.
     */
    method Join(mediaGranted: bool, openAfterWait: bool)
      requires Valid()
      modifies this`socketOpen, this`joined, this`hasLocalStream, this`pc, this`effects
      ensures Valid()
      ensures socketOpen == (old(socketOpen) || openAfterWait)
      ensures !mediaGranted ==>
        joined == old(joined) && hasLocalStream == old(hasLocalStream) && pc == old(pc) &&
        effects == old(effects) + (if old(socketOpen) then [] else [SocketConnect]) + [MediaAcquire]
      ensures mediaGranted ==>
        joined && hasLocalStream && pc == Some(Ensured(old(pc))) &&
        effects == old(effects) + (if old(socketOpen) then [] else [SocketConnect])
                   + [MediaAcquire]
                   + SendEffects(socketOpen, Payload(roomId, myId, otherId, JoinRequest, None))
                   + EnsureEffects(old(pc), true)
    {
      if !socketOpen {
        effects := effects + [SocketConnect];
        socketOpen := openAfterWait;
      }
      effects := effects + [MediaAcquire];
      if !mediaGranted {
        return;
      }
      hasLocalStream := true;
      joined := true;
      Send(JoinRequest, None);
      EnsurePeerConnection();
    }

    /** `leave`: says goodbye to the partner, tears down with media, and is no longer joined. */
    method Leave()
      requires Valid()
      modifies this`joined, this`pc, this`hasLocalStream, this`otherId, this`pending, this`effects
      ensures Valid()
      ensures !joined && pc == None && otherId == None && pending == [] && !hasLocalStream
      ensures effects == old(effects)
                         + SendEffects(socketOpen, Payload(roomId, myId, old(otherId), LeaveRequest, None))
                         + (if old(pc).Some? then [PcClose] else [])
                         + (if old(hasLocalStream) then [MediaStop] else [])
    {
      Send(LeaveRequest, None);
      TeardownPeer(true);
      joined := false;
    }

    /** `pc.onicecandidate`: a locally gathered candidate goes to the partner while a peer connection exists. */
    method OnLocalCandidate(c: CandidateInit)
      modifies this`effects
      ensures effects == old(effects) +
        (if pc.Some? then SendEffects(socketOpen, Payload(roomId, myId, otherId, CandidateBody(c), None)) else [])
    {
      if pc.Some? {
        Send(CandidateBody(c), None);
      }
    }

    /** `case 'peer_joined'`: a joined client makes an offer to a peer other than itself. */
    method OnPeerJoined(peerId: Option<string>, localSdp: string)
      requires Valid()
      modifies this`pc, this`otherId, this`effects
      ensures Valid()
      ensures if joined && Truthy(peerId) && peerId.value != myId then
          otherId == peerId &&
          pc == Some(Ensured(old(pc)).WithLocal(OfferSdp)) &&
          effects == old(effects) + EnsureEffects(old(pc), hasLocalStream)
                     + [PcCreateOffer, PcSetLocal(OfferSdp, localSdp)]
                     + SendEffects(socketOpen, Payload(roomId, myId, peerId, OfferBody(localSdp), peerId))
        else
          pc == old(pc) && otherId == old(otherId) && effects == old(effects)
    {
      if !joined {
        return;
      }
      if Truthy(peerId) && peerId.value != myId {
        otherId := peerId;
        CreateOffer(localSdp);
      }
    }

    /**
     * `case 'offer'`: a joined client adopts the sender as its partner, sets
     * the remote description, flushes the buffered candidates, and only then
     * creates, sets and sends its answer to the partner.
     */
    method OnOffer(from: Option<string>, sdp: string, accepts: CandidateInit -> bool, localSdp: string)
      requires Valid()
      modifies this`pc, this`otherId, this`pending, this`effects
      ensures Valid()
      ensures if joined then
          otherId == from && pending == [] &&
          pc == Some(Ensured(old(pc)).(applied := Ensured(old(pc)).applied + Accepted(old(pending), accepts))
                       .WithRemote(OfferSdp).WithLocal(AnswerSdp)) &&
          effects == old(effects) + EnsureEffects(old(pc), hasLocalStream)
                     + [PcSetRemote(OfferSdp, sdp)]
                     + Attempts(old(pending), accepts)
                     + [PcCreateAnswer, PcSetLocal(AnswerSdp, localSdp)]
                     + SendEffects(socketOpen, Payload(roomId, myId, from, AnswerBody(localSdp), from))
        else
          pc == old(pc) && otherId == old(otherId) && pending == old(pending) && effects == old(effects)
    {
      if !joined {
        return;
      }
      otherId := from;
      EnsurePeerConnection();
      pc := Some(pc.value.WithRemote(OfferSdp));
      effects := effects + [PcSetRemote(OfferSdp, sdp)];
      FlushPendingCandidates(accepts);
      effects := effects + [PcCreateAnswer];
      pc := Some(pc.value.WithLocal(AnswerSdp));
      effects := effects + [PcSetLocal(AnswerSdp, localSdp)];
      Send(AnswerBody(localSdp), otherId);
    }

    /** `case 'answer'`: applied, then flushed, only while an offer of ours is outstanding. */
    method OnAnswer(sdp: string, accepts: CandidateInit -> bool)
      requires Valid()
      modifies this`pc, this`pending, this`effects
      ensures Valid()
      ensures if old(pc).Some? && !old(pc).value.signalingStable then
          pending == [] &&
          pc == Some(old(pc).value.(applied := old(pc).value.applied + Accepted(old(pending), accepts))
                       .WithRemote(AnswerSdp)) &&
          effects == old(effects) + [PcSetRemote(AnswerSdp, sdp)] + Attempts(old(pending), accepts)
        else
          pc == old(pc) && pending == old(pending) && effects == old(effects)
    {
      if pc.Some? && !pc.value.signalingStable {
        pc := Some(pc.value.WithRemote(AnswerSdp));
        effects := effects + [PcSetRemote(AnswerSdp, sdp)];
        FlushPendingCandidates(accepts);
      }
    }

    /**
     * `case 'candidate'`: ignored without a peer connection or a payload (or
     * when the candidate cannot be constructed), buffered at the back of the
     * queue before a remote description exists, applied directly after.
     */
    method OnCandidate(candidate: Option<CandidateInit>, accepts: CandidateInit -> bool)
      requires Valid()
      modifies this`pc, this`pending, this`effects
      ensures Valid()
      ensures if old(pc).None? || candidate.None? || !Constructible(candidate.value) then
          pc == old(pc) && pending == old(pending) && effects == old(effects)
        else if !old(pc).value.hasRemoteDescription then
          pending == old(pending) + [candidate.value] && pc == old(pc) && effects == old(effects)
        else
          pending == old(pending) &&
          pc == Some(old(pc).value.(applied := old(pc).value.applied +
                                     (if accepts(candidate.value) then [candidate.value] else []))) &&
          effects == old(effects) + [PcAddCandidate(candidate.value, accepts(candidate.value))]
    {
      if pc.None? || candidate.None? {
        return;
      }
      var cand := candidate.value;
      if !Constructible(cand) {
        return;
      }
      if pc.value.hasRemoteDescription {
        var ok := accepts(cand);
        effects := effects + [PcAddCandidate(cand, ok)];
        if ok {
          pc := Some(pc.value.(applied := pc.value.applied + [cand]));
        } else {
          assert pc.value.applied + [] == pc.value.applied;
        }
      } else {
        pending := pending + [cand];
      }
    }

    /**
     * The `ws.onmessage` dispatcher. `accepts` says which candidates the peer
     * connection accepts; `localSdp` is the description the browser generates
     * when this message makes the client create an offer or an answer.
     */
    method Receive(msg: Inbound, accepts: CandidateInit -> bool, localSdp: string)
      requires Valid()
      modifies this`pc, this`otherId, this`pending, this`effects, this`hasLocalStream
      ensures Valid()
      ensures hasLocalStream == old(hasLocalStream)
      // An echo of this client's own message changes nothing.
      ensures Suppressed(msg, myId) || msg.kind.JoinAck? || msg.kind.OtherKind? ==>
        pc == old(pc) && otherId == old(otherId) && pending == old(pending) && effects == old(effects)
      // peer_joined: only a joined client offers, and only to another peer.
      ensures !Suppressed(msg, myId) && msg.kind.PeerJoined? ==>
        if joined && Truthy(msg.peerId) && msg.peerId.value != myId then
          otherId == msg.peerId && pending == old(pending) &&
          pc == Some(Ensured(old(pc)).WithLocal(OfferSdp)) &&
          effects == old(effects) + EnsureEffects(old(pc), hasLocalStream)
                     + [PcCreateOffer, PcSetLocal(OfferSdp, localSdp)]
                     + SendEffects(socketOpen, Payload(roomId, myId, msg.peerId, OfferBody(localSdp), msg.peerId))
        else
          pc == old(pc) && otherId == old(otherId) && pending == old(pending) && effects == old(effects)
      // peer_left: teardown without stopping media.
      ensures !Suppressed(msg, myId) && msg.kind.PeerLeft? ==>
        pc == None && otherId == None && pending == [] &&
        effects == old(effects) + (if old(pc).Some? then [PcClose] else [])
      // offer: adopt the sender, set the remote description, flush, then answer.
      ensures !Suppressed(msg, myId) && msg.kind.Offer? ==>
        if joined then
          otherId == msg.from && pending == [] &&
          pc == Some(Ensured(old(pc)).(applied := Ensured(old(pc)).applied + Accepted(old(pending), accepts))
                       .WithRemote(OfferSdp).WithLocal(AnswerSdp)) &&
          effects == old(effects) + EnsureEffects(old(pc), hasLocalStream)
                     + [PcSetRemote(OfferSdp, msg.sdp)]
                     + Attempts(old(pending), accepts)
                     + [PcCreateAnswer, PcSetLocal(AnswerSdp, localSdp)]
                     + SendEffects(socketOpen, Payload(roomId, myId, msg.from, AnswerBody(localSdp), msg.from))
        else
          pc == old(pc) && otherId == old(otherId) && pending == old(pending) && effects == old(effects)
      // answer: applied, then flushed, only when an offer of ours is outstanding.
      ensures !Suppressed(msg, myId) && msg.kind.Answer? ==>
        otherId == old(otherId) &&
        if old(pc).Some? && !old(pc).value.signalingStable then
          pending == [] &&
          pc == Some(old(pc).value.(applied := old(pc).value.applied + Accepted(old(pending), accepts))
                       .WithRemote(AnswerSdp)) &&
          effects == old(effects) + [PcSetRemote(AnswerSdp, msg.sdp)] + Attempts(old(pending), accepts)
        else
          pc == old(pc) && pending == old(pending) && effects == old(effects)
      // candidate: ignored, buffered at the back of the queue, or applied directly.
      ensures !Suppressed(msg, myId) && msg.kind.Candidate? ==>
        otherId == old(otherId) &&
        if old(pc).None? || msg.candidate.None? || !Constructible(msg.candidate.value) then
          pc == old(pc) && pending == old(pending) && effects == old(effects)
        else if !old(pc).value.hasRemoteDescription then
          pending == old(pending) + [msg.candidate.value] && pc == old(pc) && effects == old(effects)
        else
          pending == old(pending) &&
          pc == Some(old(pc).value.(applied := old(pc).value.applied +
                                     (if accepts(msg.candidate.value) then [msg.candidate.value] else []))) &&
          effects == old(effects) + [PcAddCandidate(msg.candidate.value, accepts(msg.candidate.value))]
    {
      if Truthy(msg.from) && msg.from.value == myId {
        return;
      }
      match msg.kind {
        case JoinAck =>
        case OtherKind(_) =>
        case PeerJoined => OnPeerJoined(msg.peerId, localSdp);
        case PeerLeft => TeardownPeer(false);
        case Offer => OnOffer(msg.from, msg.sdp, accepts, localSdp);
        case Answer => OnAnswer(msg.sdp, accepts);
        case Candidate => OnCandidate(msg.candidate, accepts);
      }
    }
  }

  /**
   * A client that has joined and made an offer to peer "b" receives three
   * candidates from "b" before the answer: they are buffered and, once the
   * answer arrives, applied in the order they arrived, skipping those the
   * peer connection rejects.
   */
  method CandidatesBeforeAnswer(c1: CandidateInit, c2: CandidateInit, c3: CandidateInit,
                                accepts: CandidateInit -> bool, offerSdp: string, answerSdp: string)
    returns (buffered: seq<CandidateInit>, applied: seq<CandidateInit>)
    requires Constructible(c1) && Constructible(c2) && Constructible(c3)
    ensures buffered == [c1, c2, c3]
    ensures applied == Accepted([c1, c2, c3], accepts)
    ensures accepts(c1) && accepts(c2) && accepts(c3) ==> applied == [c1, c2, c3]
  {
    var client := new SignalingClient("a", Some("r1"));
    client.OnSocketOpen();
    client.Join(true, true);
    client.Receive(Inbound(PeerJoined, None, Some("b"), "", None), accepts, offerSdp);
    assert client.pc == Some(PeerConn(false, false, []));
    client.Receive(Inbound(Candidate, Some("b"), None, "", Some(c1)), accepts, "");
    client.Receive(Inbound(Candidate, Some("b"), None, "", Some(c2)), accepts, "");
    client.Receive(Inbound(Candidate, Some("b"), None, "", Some(c3)), accepts, "");
    buffered := client.pending;
    client.Receive(Inbound(Answer, Some("b"), None, answerSdp, None), accepts, "");
    applied := client.pc.value.applied;
    if accepts(c1) && accepts(c2) && accepts(c3) {
      AcceptedAllInOrder([c1, c2, c3], accepts);
    }
  }
}
