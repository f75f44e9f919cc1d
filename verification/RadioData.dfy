/** The detection buffer of the radio sensor. */
module RadioData {

  /** `RadioDetection`: one ray hit. */
  datatype RadioDetection = RadioDetection(velocity: real, azimuth: real, altitude: real, depth: real, hittedActorId: nat)

  class RadioData {
    /** `_detections`, in the order they were written. */
    var detections: seq<RadioDetection>
    /** The reserved capacity; it does not change what is stored. */
    var capacity: nat

    constructor ()
      ensures detections == [] && capacity == 0
    {
      detections := [];
      capacity := 0;
    }

    /** Drops every detection and reserves room for `resolution` of them. */
    method SetResolution(resolution: nat)
      modifies this
      ensures detections == [] && capacity == resolution
    {
      detections := [];
      capacity := resolution;
    }

    /** The number of stored detections. */
    function GetDetectionCount(): (n: nat)
      reads this
      ensures n == |detections|
    {
      |detections|
    }

    /** Drops every detection; the capacity is kept. */
    method Reset()
      modifies this
      ensures detections == [] && capacity == old(capacity)
    {
      detections := [];
    }

    /** Appends one detection; the earlier ones are kept in order. */
    method WriteDetection(detection: RadioDetection)
      modifies this
      ensures detections == old(detections) + [detection]
      ensures GetDetectionCount() == old(GetDetectionCount()) + 1
      ensures detections[..old(|detections|)] == old(detections)
      ensures capacity == old(capacity)
    {
      detections := detections + [detection];
    }
  }
}
