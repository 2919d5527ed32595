/**
 * The relay consumer (webrtc/consumers.py). Each connection is a
 * `SignalingConsumer` holding `room_id`, `group` and `peer_id`; the channel
 * layer's group table maps a group name to the set of consumers in it.
 * `group_send` is a synchronous loop over the group's members that runs each
 * recipient's handler, and `send_json` appends to that recipient's outbox.
 */
module Relay {

  /** A JSON scalar as Python sees it after decoding: `None` or a string. */
  datatype Value = Null | Str(s: string)

  /** A decoded JSON object. */
  type Json = map<string, Value>

  /** `m.get(k)`. */
  function Get(m: Json, k: string): Value {
    if k in m then m[k] else Null
  }

  /** Python truthiness: `None` and `""` are falsy. */
  predicate Truthy(v: Value) {
    v.Str? && v.s != ""
  }

  /** `str(v)`, as used by the f-string that names the group. */
  function Render(v: Value): string {
    match v
    case Null => "None"
    case Str(s) => s
  }

  /** `m.get("roomId", "webrtc")`: the room a `join` asks for. */
  function JoinRoom(m: Json): Value {
    if "roomId" in m then m["roomId"] else Str("webrtc")
  }

  /** `f"room_{room_id}"`. */
  function GroupName(roomId: Value): string {
    "room_" + Render(roomId)
  }

  /** Two different string room ids never share a group. */
  lemma GroupNameInjective(a: string, b: string)
    requires GroupName(Str(a)) == GroupName(Str(b))
    ensures a == b
  {
    assert a == ("room_" + a)[5..];
    assert b == ("room_" + b)[5..];
  }

  /**
   * A `join` whose `roomId` is JSON `null` lands in the same group as the
   * room named "None", because the group name renders `None` as text.
   */
  lemma NullRoomSharesGroup()
    ensures JoinRoom(map["roomId" := Null]) == Null
    ensures GroupName(JoinRoom(map["roomId" := Null])) == GroupName(Str("None"))
  {
  }

  /** The acknowledgement a joiner receives. */
  function JoinAck(roomId: Value, peerId: Value): Json {
    map["type" := Str("join_ack"), "roomId" := roomId, "peerId" := peerId]
  }

  /** The notice forwarded by the `peer_joined` and `peer_left` handlers. */
  function PeerNotice(kind: string, peerId: Value): Json {
    map["type" := Str(kind), "peerId" := peerId]
  }

  /** The events `group_send` carries. */
  datatype Event =
    | PeerJoinedEvent(peerId: Value)
    | PeerLeftEvent(peerId: Value)
    | SignalEvent(message: Json)

  /** A relayed message, stamped with its sender. */
  function Stamp(m: Json, sender: Value): (r: Json)
    ensures Get(r, "from") == sender
    ensures forall k :: k in m && k != "from" ==> k in r && r[k] == m[k]
    ensures r.Keys == m.Keys + {"from"}
  {
    m["from" := sender]
  }

  /** A relayed message is addressed to `me`: it names no one, or names `me`. */
  predicate AddressedTo(msg: Json, me: Value) {
    !Truthy(Get(msg, "to")) || Get(msg, "to") == me
  }

  /**
   * What a consumer whose `peer_id` is `me` sends to its client for `ev`:
   * a peer notice unless it is about `me` itself, and a relayed message
   * exactly when it is addressed to `me` and does not come from `me`.
   */
  function Deliver(ev: Event, me: Value): (r: seq<Json>)
    ensures |r| <= 1
    ensures ev.PeerJoinedEvent? ==> (r != [] <==> ev.peerId != me) && (r != [] ==> r[0] == PeerNotice("peer_joined", ev.peerId))
    ensures ev.PeerLeftEvent? ==> (r != [] <==> ev.peerId != me) && (r != [] ==> r[0] == PeerNotice("peer_left", ev.peerId))
    ensures ev.SignalEvent? ==> (r != [] <==> AddressedTo(ev.message, me) && Get(ev.message, "from") != me)
    ensures ev.SignalEvent? && r != [] ==> r[0] == ev.message
  {
    match ev
    case PeerJoinedEvent(p) => if p != me then [PeerNotice("peer_joined", p)] else []
    case PeerLeftEvent(p) => if p != me then [PeerNotice("peer_left", p)] else []
    case SignalEvent(msg) =>
      var toId := Get(msg, "to");
      if Truthy(toId) && toId != me then []
      else if Get(msg, "from") == me then []
      else [msg]
  }

  /** The relay never echoes: a stamped message is never delivered back to its sender's peer id. */
  lemma NeverEchoes(m: Json, sender: Value)
    ensures Deliver(SignalEvent(Stamp(m, sender)), sender) == []
  {
  }

  /**
   * The peer ids, among `ids`, that receive the message `m` relayed from
   * `sender`: everyone else when `to` is unset, and only the addressee
   * (unless it is the sender) when it is set.
   */
  lemma Recipients(ids: set<Value>, m: Json, sender: Value)
    ensures !Truthy(Get(m, "to")) ==>
      (set q | q in ids && Deliver(SignalEvent(Stamp(m, sender)), q) != []) == ids - {sender}
    ensures Truthy(Get(m, "to")) ==>
      (set q | q in ids && Deliver(SignalEvent(Stamp(m, sender)), q) != []) == (ids * {Get(m, "to")}) - {sender}
  {
  }

  /** The channel layer: group name to the consumers in it. */
  class ChannelLayer {
    var groups: map<string, set<SignalingConsumer>>

    constructor ()
      ensures groups == map[]
    {
      groups := map[];
    }

    /** The consumers in group `g`. */
    function Members(g: string): set<SignalingConsumer>
      reads this
    {
      if g in groups then groups[g] else {}
    }

    /** `group_add`. */
    method GroupAdd(g: string, c: SignalingConsumer)
      modifies this
      ensures groups == old(groups)[g := old(Members(g)) + {c}]
    {
      groups := groups[g := Members(g) + {c}];
    }

    /** `group_discard`. */
    method GroupDiscard(g: string, c: SignalingConsumer)
      modifies this
      ensures Members(g) == old(Members(g)) - {c}
      ensures forall h :: h != g ==> Members(h) == old(Members(h))
    {
      if g in groups {
        groups := groups[g := groups[g] - {c}];
      }
    }

    /**
     * `group_send`: every member of `g` runs its handler for `ev`; nothing
     * but the members' outboxes changes.
     */
    method GroupSend(g: string, ev: Event)
      modifies Members(g)
      ensures forall c :: c in Members(g) ==> c.outbox == old(c.outbox) + Deliver(ev, c.peerId)
      ensures forall c :: c in Members(g) ==>
        c.peerId == old(c.peerId) && c.roomId == old(c.roomId) && c.group == old(c.group)
    {
      var todo := Members(g);
      while todo != {}
        invariant todo <= Members(g)
        invariant forall c :: c in Members(g) - todo ==> c.outbox == old(c.outbox) + Deliver(ev, c.peerId)
        invariant forall c :: c in todo ==> c.outbox == old(c.outbox)
        invariant forall c :: c in Members(g) ==>
          c.peerId == old(c.peerId) && c.roomId == old(c.roomId) && c.group == old(c.group)
        decreases todo
      {
        var c :| c in todo;
        c.Handle(ev);
        todo := todo - {c};
      }
    }
  }

  /** One WebSocket connection to the relay. */
  class SignalingConsumer {
    const layer: ChannelLayer
    var roomId: Value
    var group: Value
    var peerId: Value
    var outbox: seq<Json>

    /** `connect`: accepted, not yet in any room. */
    constructor Connect(layer: ChannelLayer)
      ensures this.layer == layer
      ensures roomId == Null && group == Null && peerId == Null && outbox == []
    {
      this.layer := layer;
      roomId := Null;
      group := Null;
      peerId := Null;
      outbox := [];
    }

    /** `peer_joined`: forwarded to everyone except the joiner's own peer id. */
    method PeerJoined(joiner: Value)
      modifies this`outbox
      ensures joiner != peerId ==> outbox == old(outbox) + [PeerNotice("peer_joined", joiner)]
      ensures joiner == peerId ==> outbox == old(outbox)
    {
      if joiner != peerId {
        outbox := outbox + [PeerNotice("peer_joined", joiner)];
      }
    }

    /** `peer_left`: forwarded to everyone except the leaver's own peer id. */
    method PeerLeft(leaver: Value)
      modifies this`outbox
      ensures leaver != peerId ==> outbox == old(outbox) + [PeerNotice("peer_left", leaver)]
      ensures leaver == peerId ==> outbox == old(outbox)
    {
      if leaver != peerId {
        outbox := outbox + [PeerNotice("peer_left", leaver)];
      }
    }

    /** `signal_message`: targeted delivery, never back to the sender. */
    method SignalMessage(msg: Json)
      modifies this`outbox
      ensures AddressedTo(msg, peerId) && Get(msg, "from") != peerId ==> outbox == old(outbox) + [msg]
      ensures !(AddressedTo(msg, peerId) && Get(msg, "from") != peerId) ==> outbox == old(outbox)
    {
      var toId := Get(msg, "to");
      if Truthy(toId) && toId != peerId {
        return;
      }
      if Get(msg, "from") == peerId {
        return;
      }
      outbox := outbox + [msg];
    }

    /** The handler the channel layer runs for an event of each type. */
    method Handle(ev: Event)
      modifies this`outbox
      ensures outbox == old(outbox) + Deliver(ev, peerId)
    {
      match ev
      case PeerJoinedEvent(p) => PeerJoined(p);
      case PeerLeftEvent(p) => PeerLeft(p);
      case SignalEvent(msg) => SignalMessage(msg);
    }

    /**
     * `disconnect`: with a group, announce the departure (when the peer id is
     * set) and leave the group; without one, do nothing.
     */
    method Disconnect()
      modifies layer, if Truthy(group) then layer.Members(group.s) else {}
      ensures roomId == old(roomId) && group == old(group) && peerId == old(peerId)
      // Without a group no consumer is in the frame, so every consumer is untouched.
      ensures !Truthy(group) ==> layer.groups == old(layer.groups)
      ensures Truthy(group) ==>
        layer.Members(group.s) == old(layer.Members(group.s)) - {this} &&
        (forall h :: h != group.s ==> layer.Members(h) == old(layer.Members(h))) &&
        forall c :: c in old(layer.Members(group.s)) ==>
          c.peerId == old(c.peerId) && c.group == old(c.group) && c.roomId == old(c.roomId) &&
          c.outbox == old(c.outbox) + (if Truthy(peerId) then Deliver(PeerLeftEvent(peerId), c.peerId) else [])
    {
      if Truthy(group) {
        if Truthy(peerId) {
          layer.GroupSend(group.s, PeerLeftEvent(peerId));
        }
        layer.GroupDiscard(group.s, this);
      }
    }

    /**
     * `receive_json`: `join` records the room, the peer id and the group,
     * joins the group, acknowledges the joiner and announces it; `leave`
     * announces the departure; anything else, from a consumer that has a
     * group and a peer id, is stamped with the sender and fanned out.
     */
    method ReceiveJson(m: Json)
      modifies this, layer,
        if Get(m, "type") == Str("join") then layer.Members(GroupName(JoinRoom(m)))
        else layer.Members(Render(group))
      // join
      ensures Get(m, "type") == Str("join") ==>
        roomId == JoinRoom(m) && peerId == Get(m, "peerId") && group == Str(GroupName(JoinRoom(m))) &&
        layer.groups == old(layer.groups)[GroupName(JoinRoom(m)) := old(layer.Members(GroupName(JoinRoom(m)))) + {this}] &&
        outbox == old(outbox) + [JoinAck(JoinRoom(m), Get(m, "peerId"))] &&
        (forall h :: h in old(layer.groups) ==> old(layer.groups)[h] <= layer.Members(h)) &&
        forall c :: c in old(layer.Members(GroupName(JoinRoom(m)))) && c != this ==>
          c.peerId == old(c.peerId) && c.group == old(c.group) && c.roomId == old(c.roomId) &&
          c.outbox == old(c.outbox) + Deliver(PeerJoinedEvent(Get(m, "peerId")), c.peerId)
      // leave and relay: the connection's own fields, the group table and its own outbox stay as they were
      ensures Get(m, "type") != Str("join") ==>
        roomId == old(roomId) && group == old(group) && peerId == old(peerId) &&
        layer.groups == old(layer.groups) && outbox == old(outbox)
      // leave
      ensures Get(m, "type") == Str("leave") ==>
        forall c :: c in old(layer.Members(Render(group))) ==>
          c.peerId == old(c.peerId) && c.group == old(c.group) && c.roomId == old(c.roomId) &&
          c.outbox == old(c.outbox) +
            (if Truthy(group) && Truthy(peerId) then Deliver(PeerLeftEvent(peerId), c.peerId) else [])
      // relay
      ensures Get(m, "type") != Str("join") && Get(m, "type") != Str("leave") ==>
        forall c :: c in old(layer.Members(Render(group))) ==>
          c.peerId == old(c.peerId) && c.group == old(c.group) && c.roomId == old(c.roomId) &&
          c.outbox == old(c.outbox) +
            (if Truthy(group) && Truthy(peerId) then Deliver(SignalEvent(Stamp(m, peerId)), c.peerId) else [])
    {
      var t := Get(m, "type");

      if t == Str("join") {
        roomId := JoinRoom(m);
        peerId := Get(m, "peerId");
        group := Str(GroupName(roomId));
        layer.GroupAdd(group.s, this);
        outbox := outbox + [JoinAck(roomId, peerId)];
        layer.GroupSend(group.s, PeerJoinedEvent(peerId));
        return;
      }

      if t == Str("leave") {
        if Truthy(group) && Truthy(peerId) {
          layer.GroupSend(group.s, PeerLeftEvent(peerId));
        }
        return;
      }

      if !Truthy(group) || !Truthy(peerId) {
        return;
      }

      var stamped := Stamp(m, peerId);
      layer.GroupSend(group.s, SignalEvent(stamped));
    }
  }

  /**
   * Consumers for peers "A" and "B" join room "r1" in turn, then "A" relays
   * an offer that names no addressee: "A" hears of "B" joining, "B" receives
   * the offer stamped with "A", and nothing is echoed to "A".
   */
  method TwoPeersRelayOffer(offer: Json) returns (outA: seq<Json>, outB: seq<Json>)
    requires Get(offer, "type") == Str("offer") && !Truthy(Get(offer, "to"))
    ensures outA == [JoinAck(Str("r1"), Str("A")), PeerNotice("peer_joined", Str("B"))]
    ensures outB == [JoinAck(Str("r1"), Str("B")), Stamp(offer, Str("A"))]
  {
    var layer := new ChannelLayer();
    var a := new SignalingConsumer.Connect(layer);
    var b := new SignalingConsumer.Connect(layer);
    var joinA := map["type" := Str("join"), "roomId" := Str("r1"), "peerId" := Str("A")];
    var joinB := map["type" := Str("join"), "roomId" := Str("r1"), "peerId" := Str("B")];
    assert Get(joinA, "type") == Str("join") && JoinRoom(joinA) == Str("r1") && Get(joinA, "peerId") == Str("A");
    assert GroupName(Str("r1")) == "room_r1";
    a.ReceiveJson(joinA);
    assert layer.Members("room_r1") == {a};
    assert Get(joinB, "type") == Str("join") && JoinRoom(joinB) == Str("r1") && Get(joinB, "peerId") == Str("B");
    b.ReceiveJson(joinB);
    assert layer.Members("room_r1") == {a, b};
    assert a.outbox == [JoinAck(Str("r1"), Str("A"))] + Deliver(PeerJoinedEvent(Str("B")), Str("A"));
    assert b.outbox == [JoinAck(Str("r1"), Str("B"))] && b.peerId == Str("B");
    assert a.group == Str("room_r1") && a.peerId == Str("A");
    a.ReceiveJson(offer);
    assert Get(Stamp(offer, Str("A")), "to") == Get(offer, "to");
    assert b.outbox == [JoinAck(Str("r1"), Str("B"))] + Deliver(SignalEvent(Stamp(offer, Str("A"))), Str("B"));
    outA := a.outbox;
    outB := b.outbox;
  }

  /**
   * A consumer that joins room "r1" and then room "r2" stays in the group of
   * "r1", and disconnecting removes it only from the group of "r2".
   */
  method RejoinThenDisconnect() returns (inFirst: bool, inSecond: bool)
    ensures inFirst && !inSecond
  {
    var layer := new ChannelLayer();
    var a := new SignalingConsumer.Connect(layer);
    var join1 := map["type" := Str("join"), "roomId" := Str("r1"), "peerId" := Str("A")];
    var join2 := map["type" := Str("join"), "roomId" := Str("r2"), "peerId" := Str("A")];
    assert Get(join1, "type") == Str("join") && JoinRoom(join1) == Str("r1");
    assert Get(join2, "type") == Str("join") && JoinRoom(join2) == Str("r2");
    assert GroupName(Str("r1")) == "room_r1" && GroupName(Str("r2")) == "room_r2";
    a.ReceiveJson(join1);
    a.ReceiveJson(join2);
    a.Disconnect();
    inFirst := a in layer.Members("room_r1");
    inSecond := a in layer.Members("room_r2");
  }
}
