/** Pods, as far as kigeon looks at them, and the objects which an informer hands to its handlers. */
module Pods {
  import opened Base

  datatype Terminated = Terminated(reason: string, containerID: string, finishedAt: Time)

  datatype ContainerStatus = ContainerStatus(
    name: string,
    state: Option<Terminated>,
    lastTerminationState: Option<Terminated>)

  datatype Container = Container(name: string, memoryLimit: Option<string>)

  datatype Pod = Pod(
    namespace: string,
    name: string,
    uid: string,
    nodeName: string,
    initContainers: seq<Container>,
    containers: seq<Container>,
    initContainerStatuses: seq<ContainerStatus>,
    containerStatuses: seq<ContainerStatus>)

  /** What an informer hands to its handlers. */
  datatype Object = PodObject(pod: Pod) | Tombstone(last: Object) | OtherObject

  /** A tombstone is unwrapped once. */
  function ToPod(obj: Object): (pod: Option<Pod>)
    ensures forall p :: pod == Some(p) <==> obj == PodObject(p) || obj == Tombstone(PodObject(p))
  {
    var inner := if obj.Tombstone? then obj.last else obj;
    if inner.PodObject? then Some(inner.pod) else None
  }
}
