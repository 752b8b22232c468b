/** The events of a simulated trajectory: a time, a type and a multiplicity. */
module EpidemicEvent {
  import opened Wrappers
  import opened Text

  datatype EventType = Infection | Activation | Recovery | Sample

  /** A trajectory event; the no-argument constructor leaves the type unset (null). */
  datatype EpidemicEvent = EpidemicEvent(time: real, kind: Option<EventType>, multiplicity: int)

  /** The no-argument constructor: time 0, no type, multiplicity 1. */
  function Default(): (e: EpidemicEvent)
    ensures e.multiplicity == 1 && e.kind.None? && e.time == 0.0
  {
    EpidemicEvent(0.0, None, 1)
  }

  /** The three-argument constructor. */
  function Make(time: real, kind: EventType, multiplicity: int): (e: EpidemicEvent)
    ensures e.time == time && e.kind == Some(kind) && e.multiplicity == multiplicity
  {
    EpidemicEvent(time, Some(kind), multiplicity)
  }

  /** The name Java prints for a type, or "null" for an unset one. */
  function TypeName(kind: Option<EventType>): (r: string)
    ensures |r| >= 1 && ' ' !in r
  {
    match kind
    case None => "null"
    case Some(Infection) => "INFECTION"
    case Some(Activation) => "ACTIVATION"
    case Some(Recovery) => "RECOVERY"
    case Some(Sample) => "SAMPLE"
  }

  lemma TypeNameInjective(a: Option<EventType>, b: Option<EventType>)
    ensures TypeName(a) == TypeName(b) ==> a == b
  {
  }

  /** getRecord: the type's name and the multiplicity, separated by a space. */
  function Record(e: EpidemicEvent): string
  {
    TypeName(e.kind) + " " + IntToString(e.multiplicity)
  }

  /** A record splits into the type's name, which determines the type, and the multiplicity. */
  lemma RecordFields(e: EpidemicEvent)
    ensures PySplit(Record(e), ' ') == [TypeName(e.kind), IntToString(e.multiplicity)]
  {
    PySplitOfJoin([TypeName(e.kind), IntToString(e.multiplicity)], ' ');
  }

  /** The shared single events, with time -1 and multiplicity 1. */
  const InfectionEvent: EpidemicEvent := EpidemicEvent(-1.0, Some(Infection), 1)
  const RecoveryEvent: EpidemicEvent := EpidemicEvent(-1.0, Some(Recovery), 1)
  const SampleEvent: EpidemicEvent := EpidemicEvent(-1.0, Some(Sample), 1)

  /** MultipleSamples(m): a sample event of multiplicity m at time -1. */
  function MultipleSamples(multiplicity: int): (e: EpidemicEvent)
    ensures e.kind == Some(Sample) && e.multiplicity == multiplicity && e.time == -1.0
    ensures multiplicity == 1 ==> e == SampleEvent
  {
    Make(-1.0, Sample, multiplicity)
  }
}
