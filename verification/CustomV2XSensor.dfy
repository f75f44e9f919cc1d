/**
 * The custom V2X sensor: user payloads sent by one sensor are queued for
 * the next frame, moved to the current frame by the sender's own pre-physics
 * tick, and picked up by every other sensor on the same channel in its
 * post-physics tick. The two frame maps are shared by all sensors (static
 * in the engine); the path-loss simulation that decides which senders a
 * receiver hears is an input.
 */
module CustomV2XSensor {
  import opened Wrappers
  import StringOrder

  /** The address of an engine actor; the sensor itself is one. */
  type ActorRef = nat

  /** The key of both frame maps: the sending actor and its channel. */
  datatype SenderId = SenderId(actor: ActorRef, channel: string)

  /** `SenderId::operator<`: by actor address, then by channel. */
  predicate Less(a: SenderId, b: SenderId) {
    if a.actor != b.actor then a.actor < b.actor else StringOrder.Less(a.channel, b.channel)
  }

  lemma LessIrreflexive(a: SenderId)
    ensures !Less(a, a)
  {
    StringOrder.LessIrreflexive(a.channel);
  }

  lemma LessTransitive(a: SenderId, b: SenderId, c: SenderId)
    requires Less(a, b) && Less(b, c)
    ensures Less(a, c)
  {
    if a.actor == b.actor == c.actor {
      StringOrder.LessTransitive(a.channel, b.channel, c.channel);
    }
  }

  /** Two ids are equivalent as map keys exactly when both fields are equal. */
  lemma Incomparable(a: SenderId, b: SenderId)
    ensures !Less(a, b) && !Less(b, a) <==> a == b
  {
    StringOrder.Incomparable(a.channel, b.channel);
  }

  /** Any two different ids are ordered, actor first. */
  lemma LessTotal(a: SenderId, b: SenderId)
    requires a != b
    ensures Less(a, b) || Less(b, a)
    ensures a.actor < b.actor ==> Less(a, b)
  {
    if a.actor == b.actor {
      StringOrder.LessTotal(a.channel, b.channel);
    }
  }

  /** `CustomV2XBytes`: a length and the payload bytes. */
  datatype CustomV2XBytes = CustomV2XBytes(dataSize: nat, bytes: seq<int>)

  datatype Header = Header(protocolVersion: int, messageId: int, stationId: int)

  datatype CustomMessage = CustomMessage(header: Header, data: CustomV2XBytes)

  /** A message with the power it was sent or received with. */
  datatype CustomV2XData = CustomV2XData(message: CustomMessage, power: real)

  const ProtocolVersion: int := 2

  type Frame = map<SenderId, seq<CustomV2XData>>

  /** Every list in a frame map holds at least one message. */
  ghost predicate NonEmptyLists(f: Frame) {
    forall id :: id in f ==> |f[id]| > 0
  }

  /** The list of `id`, or an empty one (what `insert` would create). */
  function ListOf(f: Frame, id: SenderId): seq<CustomV2XData> {
    if id in f then f[id] else []
  }

  /** `Send`: the message goes to the end of the sender's next-frame list. */
  function Queue(next: Frame, id: SenderId, msg: CustomV2XData): (r: Frame)
    ensures r.Keys == next.Keys + {id}
    ensures r[id] == ListOf(next, id) + [msg]
    ensures forall other :: other in next && other != id ==> r[other] == next[other]
  {
    next[id := ListOf(next, id) + [msg]]
  }

  /**
   * The pre-physics swap of one sender: a next-frame list replaces the
   * current one and leaves the next-frame map; without one, the current
   * entry is dropped.
   */
  function Swap(next: Frame, current: Frame, id: SenderId): (r: (Frame, Frame))
    ensures id !in r.0 && r.0 == next - {id}
    ensures id in r.1 <==> id in next
    ensures id in next ==> r.1[id] == next[id]
    ensures forall other :: other != id ==> (other in r.1 <==> other in current)
    ensures forall other :: other != id && other in current ==> r.1[other] == current[other]
  {
    if id in next then (next - {id}, current[id := next[id]])
    else (next, current - {id})
  }

  lemma QueueKeepsNonEmpty(next: Frame, id: SenderId, msg: CustomV2XData)
    requires NonEmptyLists(next)
    ensures NonEmptyLists(Queue(next, id, msg))
  {
  }

  lemma SwapKeepsNonEmpty(next: Frame, current: Frame, id: SenderId)
    requires NonEmptyLists(next) && NonEmptyLists(current)
    ensures NonEmptyLists(Swap(next, current, id).0) && NonEmptyLists(Swap(next, current, id).1)
  {
  }

  /**
   * A message queued by a sender is, after that sender's swap, the last
   * message of its current list, behind the messages queued before it in the
   * same frame.
   */
  lemma QueuedThenSwapped(next: Frame, current: Frame, id: SenderId, msg: CustomV2XData)
    ensures var (n, c) := Swap(Queue(next, id, msg), current, id);
      id !in n && id in c && c[id] == ListOf(next, id) + [msg] && c[id][|c[id]| - 1] == msg
  {
  }

  /** The entries a receiver listens to: other actors on its channel. */
  predicate Hears(receiver: ActorRef, channel: string, id: SenderId) {
    id.actor != receiver && id.channel == channel
  }

  /** The (actor, transmit power) pairs of the heard entries among `among`. */
  function Candidates(current: Frame, among: set<SenderId>, receiver: ActorRef, channel: string): set<(ActorRef, real)>
    requires forall id :: id in current ==> |current[id]| > 0
  {
    set id | id in among && id in current && Hears(receiver, channel, id) :: (id.actor, current[id][0].power)
  }

  lemma CandidatesStep(current: Frame, done: set<SenderId>, id: SenderId, receiver: ActorRef, channel: string)
    requires forall k :: k in current ==> |current[k]| > 0
    requires id in current
    ensures Candidates(current, done + {id}, receiver, channel)
      == Candidates(current, done, receiver, channel)
         + (if Hears(receiver, channel, id) then {(id.actor, current[id][0].power)} else {})
  {
  }

  /** The messages of one sender, each with the power it was received with. */
  function WithPower(msgs: seq<CustomV2XData>, power: real): (r: seq<CustomV2XData>)
    ensures |r| == |msgs|
    ensures forall i :: 0 <= i < |msgs| ==> r[i] == CustomV2XData(msgs[i].message, power)
  {
    if msgs == [] then [] else WithPower(msgs[..|msgs| - 1], power) + [CustomV2XData(msgs[|msgs| - 1].message, power)]
  }

  /**
   * What a receiver gets from the senders the propagation model lets
   * through, in their order: every message of each, with the received power.
   * A sender without a current list makes `at` throw: the failure names it.
   */
  function Deliver(current: Frame, channel: string, received: seq<(ActorRef, real)>): Result<seq<CustomV2XData>, SenderId>
    decreases |received|
  {
    if received == [] then Success([])
    else
      var front :- Deliver(current, channel, received[..|received| - 1]);
      var (actor, power) := received[|received| - 1];
      var id := SenderId(actor, channel);
      if id !in current then Failure(id)
      else Success(front + WithPower(current[id], power))
  }

  lemma {:induction false} DeliverFailurePropagates(current: Frame, channel: string, received: seq<(ActorRef, real)>, k: nat)
    requires k <= |received|
    requires Deliver(current, channel, received[..k]).Failure?
    ensures Deliver(current, channel, received) == Deliver(current, channel, received[..k])
    decreases |received|
  {
    if k < |received| {
      var front := received[..|received| - 1];
      assert front[..k] == received[..k];
      DeliverFailurePropagates(current, channel, front, k);
    } else {
      assert received[..k] == received;
    }
  }

  /**
   * `m` was sent by a sender on `channel` that the propagation model let
   * through, and carries that sender's received power.
   */
  ghost predicate FromHeardSender(current: Frame, channel: string, received: seq<(ActorRef, real)>, m: CustomV2XData) {
    exists k :: 0 <= k < |received| && SenderId(received[k].0, channel) in current && m.power == received[k].1
      && exists sent :: sent in current[SenderId(received[k].0, channel)] && sent.message == m.message
  }

  /** Every delivered message comes from a heard sender, with that sender's received power. */
  lemma {:induction false} DeliveredComeFromHeardSenders(current: Frame, channel: string, received: seq<(ActorRef, real)>)
    requires Deliver(current, channel, received).Success?
    ensures forall m :: m in Deliver(current, channel, received).value ==> FromHeardSender(current, channel, received, m)
    decreases |received|
  {
    if received != [] {
      var n := |received| - 1;
      var front := received[..n];
      DeliveredComeFromHeardSenders(current, channel, front);
      var (actor, power) := received[n];
      var id := SenderId(actor, channel);
      var out := Deliver(current, channel, received).value;
      var prev := Deliver(current, channel, front).value;
      assert out == prev + WithPower(current[id], power);
      forall m | m in out
        ensures FromHeardSender(current, channel, received, m)
      {
        if m in prev {
          assert FromHeardSender(current, channel, front, m);
          var k :| 0 <= k < |front| && SenderId(front[k].0, channel) in current && m.power == front[k].1
            && exists sent :: sent in current[SenderId(front[k].0, channel)] && sent.message == m.message;
          assert received[k] == front[k];
        } else {
          var i :| 0 <= i < |WithPower(current[id], power)| && WithPower(current[id], power)[i] == m;
          assert current[id][i] in current[id];
          assert received[n] == (actor, power);
        }
      }
    }
  }

  /** The two frame maps shared by every custom V2X sensor. */
  class Mailboxes {
    /** `gActorV2XDataMapNextFrame`. */
    var nextFrame: Frame
    /** `gActorV2XDataMap`. */
    var current: Frame

    ghost predicate Valid()
      reads this
    {
      NonEmptyLists(nextFrame) && NonEmptyLists(current)
    }

    constructor ()
      ensures Valid() && nextFrame == map[] && current == map[]
    {
      nextFrame := map[];
      current := map[];
    }
  }

  class Sensor {
    /** The sensor's own actor address (`this`). */
    const actor: ActorRef
    /** The ITS message id for custom messages. */
    const messageId: int
    const boxes: Mailboxes
    var channelId: string
    var stationId: int

    constructor (actor: ActorRef, messageId: int, channelId: string, boxes: Mailboxes)
      ensures this.actor == actor && this.messageId == messageId && this.boxes == boxes
      ensures this.channelId == channelId && stationId == 0
    {
      this.actor := actor;
      this.messageId := messageId;
      this.boxes := boxes;
      this.channelId := channelId;
      stationId := 0;
    }

    /** `GetSenderId`: this sensor on its channel. */
    function GetSenderId(): (id: SenderId)
      reads this
      ensures id.actor == actor && id.channel == channelId
    {
      SenderId(actor, channelId)
    }

    /**
     * Takes the engine's id for this actor as station id, but only while no
     * station id is set; `carlaActorId` is the registry lookup, None when
     * the actor is not registered yet.
     */
    method UpdateStationId(carlaActorId: Option<int>)
      modifies this
      ensures stationId == if old(stationId) == 0 && carlaActorId.Some? then carlaActorId.value else old(stationId)
      ensures channelId == old(channelId)
    {
      if stationId == 0 {
        if carlaActorId.Some? {
          stationId := carlaActorId.value;
        }
      }
    }

    /** Queues one message with the current station id and the transmit power for the next frame. */
    method Send(data: CustomV2XBytes, transmitPower: real, carlaActorId: Option<int>)
      requires boxes.Valid()
      modifies this, boxes
      ensures boxes.Valid()
      ensures stationId == if old(stationId) == 0 && carlaActorId.Some? then carlaActorId.value else old(stationId)
      ensures channelId == old(channelId)
      ensures boxes.nextFrame == Queue(old(boxes.nextFrame), GetSenderId(),
        CustomV2XData(CustomMessage(Header(ProtocolVersion, messageId, stationId), data), transmitPower))
      ensures boxes.current == old(boxes.current)
    {
      UpdateStationId(carlaActorId);
      var msg := CustomV2XData(CustomMessage(Header(ProtocolVersion, messageId, stationId), data), transmitPower);
      QueueKeepsNonEmpty(boxes.nextFrame, GetSenderId(), msg);
      boxes.nextFrame := Queue(boxes.nextFrame, GetSenderId(), msg);
    }

    /** Moves this sender's queued messages to the current frame; a sensor without owner does nothing. */
    method PrePhysTick(hasOwner: bool)
      requires boxes.Valid()
      modifies boxes
      ensures boxes.Valid()
      ensures hasOwner ==> (boxes.nextFrame, boxes.current) == Swap(old(boxes.nextFrame), old(boxes.current), GetSenderId())
      ensures !hasOwner ==> boxes.nextFrame == old(boxes.nextFrame) && boxes.current == old(boxes.current)
    {
      if hasOwner {
        SwapKeepsNonEmpty(boxes.nextFrame, boxes.current, GetSenderId());
        var (n, c) := Swap(boxes.nextFrame, boxes.current, GetSenderId());
        boxes.nextFrame, boxes.current := n, c;
      }
    }

    /** Step 1 of the post-physics tick: the senders this sensor listens to, with their transmit power. */
    method HeardSenders() returns (list: seq<(ActorRef, real)>)
      requires boxes.Valid()
      ensures forall p :: p in list <==> p in Candidates(boxes.current, boxes.current.Keys, actor, channelId)
    {
      list := [];
      var todo := boxes.current.Keys;
      while todo != {}
        invariant todo <= boxes.current.Keys
        invariant forall p :: p in list <==> p in Candidates(boxes.current, boxes.current.Keys - todo, actor, channelId)
        decreases todo
      {
        var id :| id in todo;
        ghost var done := boxes.current.Keys - todo;
        CandidatesStep(boxes.current, done, id, actor, channelId);
        if Hears(actor, channelId, id) {
          list := list + [(id.actor, boxes.current[id][0].power)];
        }
        todo := todo - {id};
        assert boxes.current.Keys - todo == done + {id};
      }
    }

    /**
     * Steps 2 to 5: with at least one heard sender, collect the messages of
     * the senders the propagation model lets through (`received`); the data
     * is sent only when it holds at least one message.
     */
    method PostPhysTick(received: seq<(ActorRef, real)>) returns (r: Result<seq<CustomV2XData>, SenderId>, send: bool)
      requires boxes.Valid()
      ensures Candidates(boxes.current, boxes.current.Keys, actor, channelId) == {} ==> r == Success([])
      ensures Candidates(boxes.current, boxes.current.Keys, actor, channelId) != {} ==>
        r == Deliver(boxes.current, channelId, received)
      ensures send <==> r.Success? && |r.value| > 0
    {
      var heard := HeardSenders();
      if heard == [] {
        assert Candidates(boxes.current, boxes.current.Keys, actor, channelId) == {};
        return Success([]), false;
      }
      assert heard[0] in Candidates(boxes.current, boxes.current.Keys, actor, channelId);
      assert Candidates(boxes.current, boxes.current.Keys, actor, channelId) != {};
      var out: seq<CustomV2XData> := [];
      var k := 0;
      while k < |received|
        invariant 0 <= k <= |received|
        invariant Deliver(boxes.current, channelId, received[..k]) == Success(out)
      {
        var (sender, power) := received[k];
        var id := SenderId(sender, channelId);
        assert received[..k + 1][..k] == received[..k];
        if id !in boxes.current {
          DeliverFailurePropagates(boxes.current, channelId, received, k + 1);
          return Failure(id), false;
        }
        var msgs := boxes.current[id];
        var j := 0;
        ghost var before := out;
        while j < |msgs|
          invariant 0 <= j <= |msgs|
          invariant out == before + WithPower(msgs[..j], power)
        {
          out := out + [CustomV2XData(msgs[j].message, power)];
          assert msgs[..j + 1][..j] == msgs[..j];
          j := j + 1;
        }
        assert msgs[..j] == msgs;
        k := k + 1;
      }
      assert received[..k] == received;
      r := Success(out);
      send := |out| > 0;
    }
  }
}
