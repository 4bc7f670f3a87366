/** The parts of a Kubernetes event which kigeon reads or writes. */
module Events {
  import opened Base

  datatype ObjectReference = ObjectReference(
    kind: string,
    namespace: string,
    name: string,
    uid: string,
    fieldPath: string)

  /** Absent timestamps are Kubernetes' zero times. */
  datatype Event = Event(
    uid: string,
    name: string,
    namespace: string,
    resourceVersion: string,
    managedFields: seq<string>,
    involvedObject: ObjectReference,
    reason: string,
    message: string,
    eventType: string,
    count: int,
    sourceComponent: string,
    sourceHost: string,
    eventTime: Option<Time>,
    lastTimestamp: Option<Time>,
    firstTimestamp: Option<Time>)
}
