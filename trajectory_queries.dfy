/**
 * The two parameters computed from a simulated trajectory when they are
 * initialised: the origin (the time of the first sampling event) and the
 * final sample offset (the trajectory's origin minus the time of a sampling
 * event). Both throw when no sampling event can be found.
 */
module TrajectoryQueries {
  import opened Wrappers

  /** A trajectory event as the searches see it: its time and whether it is a sampling event. */
  datatype TrajectoryEvent = TrajectoryEvent(time: real, isSample: bool)

  /** IllegalArgumentException when no sample is found; IndexOutOfBoundsException for a read at a bad index. */
  datatype SearchError = NoSample | IndexOutOfBounds(index: int)

  // ---------------------------------------------------------------------
  // OriginFromTrajectory

  /** The index of the first sampling event at or after `from`. */
  function FirstSampleFrom(events: seq<TrajectoryEvent>, from: nat): Option<nat>
    decreases |events| - from
  {
    if from >= |events| then None
    else if events[from].isSample then Some(from)
    else FirstSampleFrom(events, from + 1)
  }

  /** The search finds the first sampling event at or after `from`, or reports that there is none. */
  lemma {:induction false} FirstSampleMeaning(events: seq<TrajectoryEvent>, from: nat)
    ensures var r := FirstSampleFrom(events, from);
            && (r.Some? ==> from <= r.value < |events| && events[r.value].isSample
                            && forall k :: from <= k < r.value ==> !events[k].isSample)
            && (r.None? ==> forall k :: from <= k < |events| ==> !events[k].isSample)
    decreases |events| - from
  {
    if from < |events| && !events[from].isSample {
      FirstSampleMeaning(events, from + 1);
    }
  }

  /** The value the origin parameter is given, or the exception thrown. */
  function Origin(events: seq<TrajectoryEvent>): Result<real, SearchError>
  {
    match FirstSampleFrom(events, 0)
    case Some(k) => if k < |events| then Ok(events[k].time) else Err(NoSample)
    case None => Err(NoSample)
  }

  /**
   * The origin is the time of a sampling event that no other sampling event
   * precedes; without a sampling event, an empty list included, it is an error.
   */
  lemma OriginMeaning(events: seq<TrajectoryEvent>)
    ensures Origin(events).Ok? <==> exists k :: 0 <= k < |events| && events[k].isSample
    ensures Origin(events).Err? ==> Origin(events) == Err(NoSample)
    ensures Origin(events).Ok? ==>
              exists k :: 0 <= k < |events| && events[k].isSample && Origin(events).value == events[k].time
                          && forall j :: 0 <= j < k ==> !events[j].isSample
  {
    FirstSampleMeaning(events, 0);
  }

  /** Events after the first sampling event do not affect the origin. */
  lemma OriginIgnoresLater(events: seq<TrajectoryEvent>, k: nat, later: seq<TrajectoryEvent>)
    requires k < |events| && events[k].isSample && forall j :: 0 <= j < k ==> !events[j].isSample
    ensures Origin(events[..k + 1] + later) == Origin(events) == Ok(events[k].time)
  {
    var changed := events[..k + 1] + later;
    assert changed[k] == events[k];
    assert forall j :: 0 <= j < k ==> changed[j] == events[j];
    FirstSampleMeaning(events, 0);
    FirstSampleMeaning(changed, 0);
  }

  class OriginFromTrajectory {
    /** The parameter's value; unset until initialisation succeeds. */
    var value: Option<real>

    constructor()
      ensures value.None?
    {
      value := None;
    }

    /** initAndValidate: scans the events in order and takes the time of the first sample. */
    method InitAndValidate(events: seq<TrajectoryEvent>) returns (r: Result<(), SearchError>)
      modifies this
      ensures Origin(events).Ok? ==> r.Ok? && value == Some(Origin(events).value)
      ensures Origin(events).Err? ==> r == Err(NoSample) && value == old(value)
    {
      var i := 0;
      while i < |events|
        invariant 0 <= i <= |events|
        invariant FirstSampleFrom(events, i) == FirstSampleFrom(events, 0)
      {
        if events[i].isSample {
          value := Some(events[i].time);
          return Ok(());
        }
        i := i + 1;
      }
      return Err(NoSample);
    }
  }

  // ---------------------------------------------------------------------
  // FinalSampleOffsetFromTrajectory

  /**
   * The loop as written: it starts at index 0 and decrements, so it reads
   * event 0 and then index -1, which throws.
   */
  function FinalSampleOffsetAsWritten(events: seq<TrajectoryEvent>, origin: real): Result<real, SearchError>
  {
    if |events| == 0 then Err(NoSample)
    else if events[0].isSample then Ok(origin - events[0].time)
    else Err(IndexOutOfBounds(-1))
  }

  /** An event list whose only sample is not its first event fails with an index error. */
  lemma FinalSampleOffsetAsWrittenFails()
    ensures var events := [TrajectoryEvent(1.0, false), TrajectoryEvent(2.0, true)];
            FinalSampleOffsetAsWritten(events, 3.0) == Err(IndexOutOfBounds(-1))
            && FinalSampleOffset(events, 3.0) == Ok(1.0)
  {
    var events := [TrajectoryEvent(1.0, false), TrajectoryEvent(2.0, true)];
    assert LastSampleBefore(events, 2) == Some(1) by {
      assert events[1].isSample;
    }
  }

  /** The index of the last sampling event before index `upTo`. */
  function LastSampleBefore(events: seq<TrajectoryEvent>, upTo: nat): Option<nat>
    requires upTo <= |events|
  {
    if upTo == 0 then None
    else if events[upTo - 1].isSample then Some(upTo - 1)
    else LastSampleBefore(events, upTo - 1)
  }

  lemma {:induction false} LastSampleMeaning(events: seq<TrajectoryEvent>, upTo: nat)
    requires upTo <= |events|
    ensures var r := LastSampleBefore(events, upTo);
            && (r.Some? ==> r.value < upTo && events[r.value].isSample
                            && forall k :: r.value < k < upTo ==> !events[k].isSample)
            && (r.None? ==> forall k :: 0 <= k < upTo ==> !events[k].isSample)
  {
    if upTo > 0 && !events[upTo - 1].isSample {
      LastSampleMeaning(events, upTo - 1);
    }
  }

  /** The intended value: the trajectory's origin minus the time of its final sampling event. */
  function FinalSampleOffset(events: seq<TrajectoryEvent>, origin: real): Result<real, SearchError>
  {
    match LastSampleBefore(events, |events|)
    case Some(k) => if k < |events| then Ok(origin - events[k].time) else Err(NoSample)
    case None => Err(NoSample)
  }

  /** The offset comes from a sampling event that no later event follows as a sample; with no sample it is an error. */
  lemma FinalSampleOffsetMeaning(events: seq<TrajectoryEvent>, origin: real)
    ensures FinalSampleOffset(events, origin).Ok? <==> exists k :: 0 <= k < |events| && events[k].isSample
    ensures FinalSampleOffset(events, origin).Err? ==> FinalSampleOffset(events, origin) == Err(NoSample)
    ensures FinalSampleOffset(events, origin).Ok? ==>
              exists k :: 0 <= k < |events| && events[k].isSample
                          && FinalSampleOffset(events, origin).value == origin - events[k].time
                          && forall j :: k < j < |events| ==> !events[j].isSample
  {
    LastSampleMeaning(events, |events|);
  }

  /** Where the first event is a sample, the code as written agrees with the intended search only if no later sample exists. */
  lemma FinalSampleOffsetAgreement(events: seq<TrajectoryEvent>, origin: real)
    requires |events| >= 1 && events[0].isSample && forall j :: 0 < j < |events| ==> !events[j].isSample
    ensures FinalSampleOffsetAsWritten(events, origin) == FinalSampleOffset(events, origin) == Ok(origin - events[0].time)
  {
    LastSampleMeaning(events, |events|);
  }

  class FinalSampleOffsetFromTrajectory {
    /** The parameter's value; unset until initialisation succeeds. */
    var value: Option<real>

    constructor()
      ensures value.None?
    {
      value := None;
    }

    /** initAndValidate as written: `i` starts at 0 and is decremented. */
    method InitAndValidateAsWritten(events: seq<TrajectoryEvent>, origin: real) returns (r: Result<(), SearchError>)
      modifies this
      ensures FinalSampleOffsetAsWritten(events, origin).Ok? ==>
                r.Ok? && value == Some(FinalSampleOffsetAsWritten(events, origin).value)
      ensures FinalSampleOffsetAsWritten(events, origin).Err? ==>
                r == Err(FinalSampleOffsetAsWritten(events, origin).error) && value == old(value)
    {
      var i: int := 0;
      while i < |events|
        invariant -1 <= i <= 0
        invariant i == -1 ==> |events| >= 1 && !events[0].isSample
        decreases i + 1
      {
        if i < 0 {
          return Err(IndexOutOfBounds(i));
        }
        if events[i].isSample {
          value := Some(origin - events[i].time);
          return Ok(());
        }
        i := i - 1;
      }
      return Err(NoSample);
    }

    /** initAndValidate as intended: the scan runs from the last event down to the first. */
    method InitAndValidate(events: seq<TrajectoryEvent>, origin: real) returns (r: Result<(), SearchError>)
      modifies this
      ensures FinalSampleOffset(events, origin).Ok? ==> r.Ok? && value == Some(FinalSampleOffset(events, origin).value)
      ensures FinalSampleOffset(events, origin).Err? ==> r == Err(NoSample) && value == old(value)
    {
      var i := |events|;
      while i > 0
        invariant 0 <= i <= |events|
        invariant LastSampleBefore(events, i) == LastSampleBefore(events, |events|)
      {
        if events[i - 1].isSample {
          value := Some(origin - events[i - 1].time);
          return Ok(());
        }
        i := i - 1;
      }
      return Err(NoSample);
    }
  }
}
