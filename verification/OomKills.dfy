/** Synthetic events for OOM killed containers (internal/pods/oom.go). */
module OomKills {
  import opened Base
  import opened Events
  import opened Pods

  /** The text functions of Go which the model leaves open. */
  datatype Text = Text(
    rfc3339: int -> string,      // the UTC date of a whole second
    digest: string -> string)    // the first eight bytes of SHA-256, in hex

  const OOM_KILLED := "OOMKilled"
  const COMPONENT := "kigeon"
  const INIT_CONTAINERS := "initContainers"
  const CONTAINERS := "containers"

  /** One termination of one container, with what its event needs. */
  datatype Kill = Kill(id: string, container: string, fieldPath: string, limit: string, finishedAt: Time)

  predicate Qualifies(t: Terminated, since: Time) {
    t.reason == OOM_KILLED && t.finishedAt >= since
  }

  function KillId(text: Text, podUid: string, container: string, t: Terminated): string {
    if t.containerID != "" then t.containerID
    else podUid + "/" + container + "/" + text.rfc3339(t.finishedAt / SECOND)
  }

  /** The first limit which a container of this name sets. */
  function MemoryLimit(containers: seq<Container>, name: string): string {
    if containers == [] then ""
    else if containers[0].name == name && containers[0].memoryLimit.Some? then containers[0].memoryLimit.value
    else MemoryLimit(containers[1..], name)
  }

  function KillOf(text: Text, podUid: string, container: string, fieldPath: string, limit: string, t: Terminated): Kill {
    Kill(KillId(text, podUid, container, t), container, fieldPath, limit, t.finishedAt)
  }

  function StateKills(text: Text, podUid: string, status: ContainerStatus, fieldPath: string, limit: string,
                      state: Option<Terminated>, since: Time): seq<Kill> {
    if state.Some? && Qualifies(state.value, since)
    then [KillOf(text, podUid, status.name, fieldPath, limit, state.value)] else []
  }

  /** The present state of a container comes before its last termination. */
  function StatusKills(text: Text, podUid: string, status: ContainerStatus, fieldPath: string, limit: string, since: Time): seq<Kill> {
    StateKills(text, podUid, status, fieldPath, limit, status.state, since) +
    StateKills(text, podUid, status, fieldPath, limit, status.lastTerminationState, since)
  }

  function FieldPath(kind: string, name: string): string {
    "spec." + kind + "{" + name + "}"
  }

  function ListKills(text: Text, podUid: string, kind: string, statuses: seq<ContainerStatus>, limits: seq<Container>, since: Time): seq<Kill> {
    if statuses == [] then []
    else
      var last := statuses[|statuses| - 1];
      ListKills(text, podUid, kind, statuses[..|statuses| - 1], limits, since) +
      StatusKills(text, podUid, last, FieldPath(kind, last.name), MemoryLimit(limits, last.name), since)
  }

  /** Every qualifying termination of the pod, init containers first. */
  function PodKills(text: Text, pod: Pod, since: Time): seq<Kill> {
    ListKills(text, pod.uid, INIT_CONTAINERS, pod.initContainerStatuses, pod.initContainers, since) +
    ListKills(text, pod.uid, CONTAINERS, pod.containerStatuses, pod.containers, since)
  }

  predicate HasId(kills: seq<Kill>, id: string) {
    exists i :: 0 <= i < |kills| && kills[i].id == id
  }

  /** The first kill of every id, in order. */
  function FirstById(kills: seq<Kill>): seq<Kill> {
    if kills == [] then []
    else
      var init, last := kills[..|kills| - 1], kills[|kills| - 1];
      if HasId(init, last.id) then FirstById(init) else FirstById(init) + [last]
  }

  function Uid(text: Text, id: string): string {
    "kigeon-oomkilled-" + text.digest(id)
  }

  function KillMessage(kill: Kill): string {
    "Container " + kill.container + " was killed because it ran out of memory" +
    if kill.limit != "" then " (memory limit " + kill.limit + ")" else ""
  }

  function EventOf(text: Text, pod: Pod, kill: Kill): Event {
    Event(
      Uid(text, kill.id),
      pod.name + ".oomkilled." + text.digest(kill.id),
      pod.namespace,
      "",
      [],
      ObjectReference("Pod", pod.namespace, pod.name, pod.uid, kill.fieldPath),
      OOM_KILLED,
      KillMessage(kill),
      "Warning",
      1,
      COMPONENT,
      pod.nodeName,
      None,
      Some(kill.finishedAt),
      Some(kill.finishedAt))
  }

  function EventsOf(text: Text, pod: Pod, kills: seq<Kill>): (events: seq<Event>)
    ensures |events| == |kills|
    ensures forall i :: 0 <= i < |kills| ==> events[i] == EventOf(text, pod, kills[i])
  {
    seq(|kills|, i requires 0 <= i < |kills| => EventOf(text, pod, kills[i]))
  }

  ghost function KilledEvents(text: Text, pod: Pod, since: Time): seq<Event> {
    EventsOf(text, pod, FirstById(PodKills(text, pod, since)))
  }

  predicate SeenIsIds(seen: set<string>, kills: seq<Kill>) {
    (forall id :: id in seen ==> HasId(kills, id)) &&
    forall i :: 0 <= i < |kills| ==> kills[i].id in seen
  }

  lemma FirstByIdSnoc(kills: seq<Kill>, kill: Kill)
    ensures FirstById(kills + [kill]) == if HasId(kills, kill.id) then FirstById(kills) else FirstById(kills) + [kill]
  {
    assert (kills + [kill])[..|kills|] == kills;
  }

  lemma SeenGrows(seen: set<string>, kills: seq<Kill>, kill: Kill)
    requires SeenIsIds(seen, kills)
    ensures kill.id in seen <==> HasId(kills, kill.id)
    ensures SeenIsIds(seen + {kill.id}, kills + [kill])
  {
    var kills' := kills + [kill];
    assert kills'[|kills|] == kill;
    forall id | id in seen ensures HasId(kills', id) {
      var i :| 0 <= i < |kills| && kills[i].id == id;
      assert kills'[i].id == id;
    }
  }

  lemma EventsOfSnoc(text: Text, pod: Pod, kills: seq<Kill>, kill: Kill)
    ensures EventsOf(text, pod, kills + [kill]) == EventsOf(text, pod, kills) + [EventOf(text, pod, kill)]
  {
  }

  lemma ListKillsSnoc(text: Text, podUid: string, kind: string, statuses: seq<ContainerStatus>, limits: seq<Container>,
                      since: Time, i: nat)
    requires i < |statuses|
    ensures ListKills(text, podUid, kind, statuses[..i + 1], limits, since) ==
            ListKills(text, podUid, kind, statuses[..i], limits, since) +
            StatusKills(text, podUid, statuses[i], FieldPath(kind, statuses[i].name), MemoryLimit(limits, statuses[i].name), since)
  {
    assert statuses[..i + 1][..i] == statuses[..i];
  }

  /** The closure `add` of OOMKilledEvents with the variables it captures. */
  class Collector {
    var seen: set<string>
    var events: seq<Event>
    const text: Text
    const pod: Pod
    const since: Time
    ghost var kills: seq<Kill>   // every qualifying termination so far

    constructor (text: Text, pod: Pod, since: Time)
      ensures Valid() && this.text == text && this.pod == pod && this.since == since && kills == []
    {
      this.text, this.pod, this.since := text, pod, since;
      seen, events, kills := {}, [], [];
    }

    ghost predicate Valid()
      reads this
    {
      SeenIsIds(seen, kills) && events == EventsOf(text, pod, FirstById(kills))
    }

    /** One pass of the loop over a container's states. */
    method AddState(status: ContainerStatus, fieldPath: string, limit: string, state: Option<Terminated>)
      requires Valid()
      modifies this
      ensures Valid()
      ensures kills == old(kills) + StateKills(text, pod.uid, status, fieldPath, limit, state, since)
    {
      if state == None || state.value.reason != OOM_KILLED || state.value.finishedAt < since {
        return;
      }
      var id := KillId(text, pod.uid, status.name, state.value);
      ghost var before := kills;
      ghost var kill := KillOf(text, pod.uid, status.name, fieldPath, limit, state.value);
      kills := kills + [kill];
      FirstByIdSnoc(before, kill);
      SeenGrows(seen, before, kill);
      if id in seen {
        return;
      }
      seen := seen + {id};
      events := events + [EventOf(text, pod, KillOf(text, pod.uid, status.name, fieldPath, limit, state.value))];
      EventsOfSnoc(text, pod, FirstById(before), kill);
    }

    method Add(status: ContainerStatus, fieldPath: string, limits: seq<Container>)
      requires Valid()
      modifies this
      ensures Valid()
      ensures kills == old(kills) + StatusKills(text, pod.uid, status, fieldPath, MemoryLimit(limits, status.name), since)
    {
      var states := [status.state, status.lastTerminationState];
      var limit := MemoryLimit(limits, status.name);
      for i := 0 to |states|
        invariant Valid()
        invariant kills == old(kills) +
                           (if i > 0 then StateKills(text, pod.uid, status, fieldPath, limit, states[0], since) else []) +
                           (if i > 1 then StateKills(text, pod.uid, status, fieldPath, limit, states[1], since) else [])
      {
        AddState(status, fieldPath, limit, states[i]);
      }
    }

    method AddAll(kind: string, statuses: seq<ContainerStatus>, limits: seq<Container>)
      requires Valid()
      modifies this
      ensures Valid()
      ensures kills == old(kills) + ListKills(text, pod.uid, kind, statuses, limits, since)
    {
      hide StatusKills, MemoryLimit, FirstById, SeenIsIds;
      for i := 0 to |statuses|
        invariant Valid()
        invariant kills == old(kills) + ListKills(text, pod.uid, kind, statuses[..i], limits, since)
      {
        Add(statuses[i], FieldPath(kind, statuses[i].name), limits);
        ListKillsSnoc(text, pod.uid, kind, statuses, limits, since, i);
      }
      assert statuses[..|statuses|] == statuses;
    }

    method AddPod()
      requires Valid() && kills == []
      modifies this
      ensures Valid() && kills == PodKills(text, pod, since)
    {
      AddAll(INIT_CONTAINERS, pod.initContainerStatuses, pod.initContainers);
      ghost var first := ListKills(text, pod.uid, INIT_CONTAINERS, pod.initContainerStatuses, pod.initContainers, since);
      assert kills == first;
      AddAll(CONTAINERS, pod.containerStatuses, pod.containers);
    }
  }

  method OOMKilledEvents(text: Text, pod: Pod, since: Time) returns (events: seq<Event>)
    ensures events == KilledEvents(text, pod, since)
  {
    var collector := new Collector(text, pod, since);
    collector.AddPod();
    events := collector.events;
  }
}
