/**
 * The audio source: an abstract `MediaRecorder` that is either inactive or
 * recording, remembers its timeslice, and counts the `dataavailable`
 * listeners registered on it (each one is invoked for every chunk).
 */
module MediaRecorder {
  import opened Wrappers

  class Recorder {
    var recording: bool
    var timeslice: Option<nat>
    var dataListeners: nat

    constructor ()
      ensures !recording && timeslice == None && dataListeners == 0
    {
      recording := false;
      timeslice := None;
      dataListeners := 0;
    }

    /** `addEventListener("dataavailable", ...)`: one more listener; none is ever removed. */
    method AddDataListener()
      modifies this
      ensures dataListeners == old(dataListeners) + 1
      ensures recording == old(recording) && timeslice == old(timeslice)
    {
      dataListeners := dataListeners + 1;
    }

    /** `start(timeslice)`: deliver a chunk every `ms` milliseconds. */
    method Start(ms: nat)
      modifies this
      ensures recording && timeslice == Some(ms)
      ensures dataListeners == old(dataListeners)
    {
      recording := true;
      timeslice := Some(ms);
    }

    /** `stop()`. */
    method Stop()
      modifies this
      ensures !recording
      ensures timeslice == old(timeslice) && dataListeners == old(dataListeners)
    {
      recording := false;
    }
  }
}
