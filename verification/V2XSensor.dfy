/**
 * The cooperative-awareness V2X sensor: in its pre-physics tick each sensor
 * replaces its entry of the shared CAM map by the message its CA service
 * generated, if any; in its post-physics tick it receives the entries of
 * every other sensor that the propagation model lets through. The CA
 * service (triggering, message content) and the path-loss model are
 * inputs.
 */
module V2XSensor {
  import opened Wrappers

  /** The address of an engine actor; each sensor is one. */
  type ActorRef = nat

  /** A cooperative awareness message; its content is produced by the CA service. */
  datatype CamMessage = CamMessage(stationId: int, content: seq<int>)

  /** `CAMData`: a message with its transmit or received power. */
  datatype CamData = CamData(message: CamMessage, power: real)

  type CamMap = map<ActorRef, CamData>

  /** The shared map after one sensor's pre-physics tick: its old entry is erased, a triggered message is inserted. */
  function Publish(cams: CamMap, sensor: ActorRef, triggered: bool, cam: CamData): (r: CamMap)
    ensures sensor in r <==> triggered
    ensures triggered ==> r[sensor] == cam
    ensures forall other :: other != sensor ==> (other in r <==> other in cams)
    ensures forall other :: other != sensor && other in cams ==> r[other] == cams[other]
  {
    var erased := cams - {sensor};
    if triggered then erased[sensor := cam] else erased
  }

  /** The (actor, transmit power) pairs of every other sensor's entry among `among`. */
  function Candidates(cams: CamMap, among: set<ActorRef>, receiver: ActorRef): set<(ActorRef, real)> {
    set a | a in among && a in cams && a != receiver :: (a, cams[a].power)
  }

  lemma CandidatesStep(cams: CamMap, done: set<ActorRef>, a: ActorRef, receiver: ActorRef)
    requires a in cams
    ensures Candidates(cams, done + {a}, receiver)
      == Candidates(cams, done, receiver) + (if a != receiver then {(a, cams[a].power)} else {})
  {
  }

  /**
   * The messages received from the senders the propagation model lets
   * through, in their order, each with its received power. A sender without
   * an entry makes `at` throw: the failure names it.
   */
  function Receive(cams: CamMap, received: seq<(ActorRef, real)>): (r: Result<seq<CamData>, ActorRef>)
    ensures r.Success? ==> |r.value| == |received|
    decreases |received|
  {
    if received == [] then Success([])
    else
      var front :- Receive(cams, received[..|received| - 1]);
      var (sender, power) := received[|received| - 1];
      if sender !in cams then Failure(sender)
      else Success(front + [CamData(cams[sender].message, power)])
  }

  /** On success, the i-th received message is the CAM of the i-th let-through sender with its received power. */
  lemma {:induction false} ReceivedInOrder(cams: CamMap, received: seq<(ActorRef, real)>, i: nat)
    requires Receive(cams, received).Success? && i < |received|
    ensures received[i].0 in cams
    ensures Receive(cams, received).value[i] == CamData(cams[received[i].0].message, received[i].1)
    decreases |received|
  {
    var n := |received| - 1;
    if i < n {
      ReceivedInOrder(cams, received[..n], i);
    }
  }

  lemma {:induction false} ReceiveFailurePropagates(cams: CamMap, received: seq<(ActorRef, real)>, k: nat)
    requires k <= |received|
    requires Receive(cams, received[..k]).Failure?
    ensures Receive(cams, received) == Receive(cams, received[..k])
    decreases |received|
  {
    if k < |received| {
      var front := received[..|received| - 1];
      assert front[..k] == received[..k];
      ReceiveFailurePropagates(cams, front, k);
    } else {
      assert received[..k] == received;
    }
  }

  /** `mActorV2XDataMap`: the CAM of every sensor that sent one this frame. */
  class CamBoard {
    var cams: CamMap

    constructor ()
      ensures cams == map[]
    {
      cams := map[];
    }
  }

  class Sensor {
    /** The sensor's own actor address (`this`). */
    const actor: ActorRef
    const board: CamBoard
    /** The actor the CA service describes; None until a model owner is set. */
    var serviceActor: Option<ActorRef>

    constructor (actor: ActorRef, board: CamBoard)
      ensures this.actor == actor && this.board == board && serviceActor == None
    {
      this.actor := actor;
      this.board := board;
      serviceActor := None;
    }

    /** `InitModel`: the CA service now describes `owner`. */
    method InitModel(owner: ActorRef)
      modifies this
      ensures serviceActor == Some(owner)
    {
      serviceActor := Some(owner);
    }

    /**
     * Makes the sensor itself the CA service's actor when there is none yet,
     * then publishes this frame's CAM: `triggered` and `cam` are the CA
     * service's decision and message, `transmitPower` the path-loss model's.
     */
    method PrePhysTick(triggered: bool, cam: CamMessage, transmitPower: real)
      modifies this, board
      ensures serviceActor == if old(serviceActor).None? then Some(actor) else old(serviceActor)
      ensures board.cams == Publish(old(board.cams), actor, triggered, CamData(cam, transmitPower))
    {
      if serviceActor.None? {
        InitModel(actor);
      }
      board.cams := board.cams - {actor};
      if triggered {
        board.cams := board.cams[actor := CamData(cam, transmitPower)];
      }
    }

    /** Step 1 of the post-physics tick: every other sensor's entry with its transmit power. */
    method OtherSenders() returns (list: seq<(ActorRef, real)>)
      ensures forall p :: p in list <==> p in Candidates(board.cams, board.cams.Keys, actor)
    {
      list := [];
      var todo := board.cams.Keys;
      while todo != {}
        invariant todo <= board.cams.Keys
        invariant forall p :: p in list <==> p in Candidates(board.cams, board.cams.Keys - todo, actor)
        decreases todo
      {
        var a :| a in todo;
        ghost var done := board.cams.Keys - todo;
        CandidatesStep(board.cams, done, a, actor);
        if a != actor {
          list := list + [(a, board.cams[a].power)];
        }
        todo := todo - {a};
        assert board.cams.Keys - todo == done + {a};
      }
    }

    /**
     * Steps 2 to 5: with at least one other sender, receive the CAMs of the
     * senders the propagation model lets through (`received`); the data is
     * sent only when at least one message was received.
     */
    method PostPhysTick(received: seq<(ActorRef, real)>) returns (r: Result<seq<CamData>, ActorRef>, send: bool)
      ensures Candidates(board.cams, board.cams.Keys, actor) == {} ==> r == Success([])
      ensures Candidates(board.cams, board.cams.Keys, actor) != {} ==> r == Receive(board.cams, received)
      ensures send <==> r.Success? && |r.value| > 0
    {
      var others := OtherSenders();
      if others == [] {
        assert Candidates(board.cams, board.cams.Keys, actor) == {};
        return Success([]), false;
      }
      assert others[0] in Candidates(board.cams, board.cams.Keys, actor);
      var out: seq<CamData> := [];
      var k := 0;
      while k < |received|
        invariant 0 <= k <= |received|
        invariant Receive(board.cams, received[..k]) == Success(out)
      {
        var (sender, power) := received[k];
        assert received[..k + 1][..k] == received[..k];
        if sender !in board.cams {
          ReceiveFailurePropagates(board.cams, received, k + 1);
          return Failure(sender), false;
        }
        out := out + [CamData(board.cams[sender].message, power)];
        k := k + 1;
      }
      assert received[..k] == received;
      r := Success(out);
      send := |out| > 0;
    }
  }
}
