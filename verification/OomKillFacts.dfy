/** What OOMKilledEvents reports, in terms of the pod's container statuses. */
module OomKillFacts {
  import opened Base
  import opened Events
  import opened Pods
  import opened OomKills

  predicate IsFirst(kills: seq<Kill>, i: int)
    requires 0 <= i < |kills|
  {
    forall j :: 0 <= j < i ==> kills[j].id != kills[i].id
  }

  /** How many ids appear for the first time before position i. */
  function Rank(kills: seq<Kill>, i: nat): nat
    requires i <= |kills|
  {
    if i == 0 then 0 else Rank(kills, i - 1) + if IsFirst(kills, i - 1) then 1 else 0
  }

  lemma {:induction false} RankOfPrefix(kills: seq<Kill>, kill: Kill, i: nat)
    requires i <= |kills|
    ensures Rank(kills + [kill], i) == Rank(kills, i)
  {
    if i > 0 {
      RankOfPrefix(kills, kill, i - 1);
      assert forall j :: 0 <= j < i ==> (kills + [kill])[j] == kills[j];
      assert IsFirst(kills + [kill], i - 1) <==> IsFirst(kills, i - 1);
    }
  }

  lemma FirstByIdStep(init: seq<Kill>, last: Kill)
    ensures FirstById(init + [last]) == if IsFirst(init + [last], |init|) then FirstById(init) + [last] else FirstById(init)
  {
    FirstByIdSnoc(init, last);
    assert forall j :: 0 <= j < |init| ==> (init + [last])[j] == init[j];
  }

  /** As many events as ids. */
  lemma {:induction false} FirstLength(kills: seq<Kill>)
    ensures |FirstById(kills)| == Rank(kills, |kills|)
  {
    if kills != [] {
      var init, last := kills[..|kills| - 1], kills[|kills| - 1];
      FirstLength(init);
      assert kills == init + [last];
      FirstByIdStep(init, last);
      RankOfPrefix(init, last, |init|);
    }
  }

  /** Every first occurrence is reported, at the position of its rank: order is kept. */
  lemma {:induction false} FirstOccurrences(kills: seq<Kill>, i: nat)
    requires i < |kills| && IsFirst(kills, i)
    ensures Rank(kills, i) < |FirstById(kills)| && FirstById(kills)[Rank(kills, i)] == kills[i]
  {
    var init, last := kills[..|kills| - 1], kills[|kills| - 1];
    assert kills == init + [last];
    FirstByIdStep(init, last);
    RankOfPrefix(init, last, i);
    if i < |init| {
      assert forall j :: 0 <= j <= i ==> kills[j] == init[j];
      FirstOccurrences(init, i);
    } else {
      FirstLength(init);
    }
  }

  /** No id twice, and no id missing. */
  lemma {:induction false} IdsDistinctAndComplete(kills: seq<Kill>)
    ensures forall i, j :: 0 <= i < j < |FirstById(kills)| ==> FirstById(kills)[i].id != FirstById(kills)[j].id
    ensures forall i :: 0 <= i < |FirstById(kills)| ==> FirstById(kills)[i] in kills
    ensures forall id :: HasId(FirstById(kills), id) <==> HasId(kills, id)
  {
    if kills != [] {
      var init, last := kills[..|kills| - 1], kills[|kills| - 1];
      IdsDistinctAndComplete(init);
      assert kills == init + [last];
      forall id ensures HasId(FirstById(kills), id) <==> HasId(kills, id) {
        assert HasId(kills, id) <==> HasId(init, id) || id == last.id;
        if !HasId(init, last.id) {
          HasIdSnoc(FirstById(init), last, id);
        }
      }
      assert forall i :: 0 <= i < |FirstById(init)| ==> HasId(FirstById(init), FirstById(init)[i].id);
    }
  }

  lemma HasIdSnoc(kills: seq<Kill>, kill: Kill, id: string)
    ensures HasId(kills + [kill], id) <==> HasId(kills, id) || kill.id == id
  {
    var kills' := kills + [kill];
    assert kills'[|kills|] == kill;
    if HasId(kills, id) {
      var i :| 0 <= i < |kills| && kills[i].id == id;
      assert kills'[i].id == id;
    }
  }

  /** A container state which records an OOM kill. */
  predicate Records(text: Text, podUid: string, status: ContainerStatus, state: Option<Terminated>, id: string, at: Time) {
    state.Some? && state.value.reason == OOM_KILLED && state.value.finishedAt == at &&
    KillId(text, podUid, status.name, state.value) == id
  }

  predicate StatusRecords(text: Text, podUid: string, status: ContainerStatus, id: string, at: Time) {
    Records(text, podUid, status, status.state, id, at) || Records(text, podUid, status, status.lastTerminationState, id, at)
  }

  predicate ListRecords(text: Text, podUid: string, statuses: seq<ContainerStatus>, id: string, at: Time) {
    exists i :: 0 <= i < |statuses| && StatusRecords(text, podUid, statuses[i], id, at)
  }

  /** The pod's status shows a container killed at this instant. */
  predicate Shows(text: Text, pod: Pod, id: string, at: Time) {
    ListRecords(text, pod.uid, pod.initContainerStatuses, id, at) || ListRecords(text, pod.uid, pod.containerStatuses, id, at)
  }

  predicate HasKill(kills: seq<Kill>, id: string, at: Time) {
    exists i :: 0 <= i < |kills| && kills[i].id == id && kills[i].finishedAt == at
  }

  lemma HasKillAppend(a: seq<Kill>, b: seq<Kill>, id: string, at: Time)
    ensures HasKill(a + b, id, at) <==> HasKill(a, id, at) || HasKill(b, id, at)
  {
    if HasKill(a, id, at) {
      var i :| 0 <= i < |a| && a[i].id == id && a[i].finishedAt == at;
      assert (a + b)[i] == a[i];
    }
    if HasKill(b, id, at) {
      var i :| 0 <= i < |b| && b[i].id == id && b[i].finishedAt == at;
      assert (a + b)[|a| + i] == b[i];
    }
  }

  lemma StatusKillsExact(text: Text, podUid: string, status: ContainerStatus, fieldPath: string, limit: string, since: Time,
                         id: string, at: Time)
    ensures HasKill(StatusKills(text, podUid, status, fieldPath, limit, since), id, at) <==>
            StatusRecords(text, podUid, status, id, at) && at >= since
  {
    var a := StateKills(text, podUid, status, fieldPath, limit, status.state, since);
    var b := StateKills(text, podUid, status, fieldPath, limit, status.lastTerminationState, since);
    HasKillAppend(a, b, id, at);
    assert HasKill(a, id, at) <==> |a| == 1 && a[0].id == id && a[0].finishedAt == at;
    assert HasKill(b, id, at) <==> |b| == 1 && b[0].id == id && b[0].finishedAt == at;
  }

  lemma {:induction false} ListKillsExact(text: Text, podUid: string, kind: string, statuses: seq<ContainerStatus>,
                                          limits: seq<Container>, since: Time, id: string, at: Time)
    ensures HasKill(ListKills(text, podUid, kind, statuses, limits, since), id, at) <==>
            ListRecords(text, podUid, statuses, id, at) && at >= since
  {
    if statuses != [] {
      var init, last := statuses[..|statuses| - 1], statuses[|statuses| - 1];
      ListKillsExact(text, podUid, kind, init, limits, since, id, at);
      var kills := StatusKills(text, podUid, last, FieldPath(kind, last.name), MemoryLimit(limits, last.name), since);
      StatusKillsExact(text, podUid, last, FieldPath(kind, last.name), MemoryLimit(limits, last.name), since, id, at);
      HasKillAppend(ListKills(text, podUid, kind, init, limits, since), kills, id, at);
      assert ListRecords(text, podUid, statuses, id, at) <==>
             ListRecords(text, podUid, init, id, at) || StatusRecords(text, podUid, last, id, at) by {
        if ListRecords(text, podUid, init, id, at) {
          var i :| 0 <= i < |init| && StatusRecords(text, podUid, init[i], id, at);
          assert statuses[i] == init[i];
        }
        if StatusRecords(text, podUid, last, id, at) {
          assert StatusRecords(text, podUid, statuses[|statuses| - 1], id, at);
        }
        if ListRecords(text, podUid, statuses, id, at) {
          var i :| 0 <= i < |statuses| && StatusRecords(text, podUid, statuses[i], id, at);
          assert i < |init| ==> StatusRecords(text, podUid, init[i], id, at);
        }
      }
    }
  }

  lemma PodKillsExact(text: Text, pod: Pod, since: Time, id: string, at: Time)
    ensures HasKill(PodKills(text, pod, since), id, at) <==> Shows(text, pod, id, at) && at >= since
  {
    ListKillsExact(text, pod.uid, INIT_CONTAINERS, pod.initContainerStatuses, pod.initContainers, since, id, at);
    ListKillsExact(text, pod.uid, CONTAINERS, pod.containerStatuses, pod.containers, since, id, at);
    HasKillAppend(ListKills(text, pod.uid, INIT_CONTAINERS, pod.initContainerStatuses, pod.initContainers, since),
                  ListKills(text, pod.uid, CONTAINERS, pod.containerStatuses, pod.containers, since), id, at);
  }

  ghost predicate Reported(text: Text, pod: Pod, since: Time, id: string) {
    HasId(FirstById(PodKills(text, pod, since)), id)
  }

  /** An id is reported exactly if the pod shows a kill of that id which is recent enough. */
  lemma ReportedIff(text: Text, pod: Pod, since: Time, id: string)
    ensures Reported(text, pod, since, id) <==> exists at :: at >= since && Shows(text, pod, id, at)
  {
    var kills := PodKills(text, pod, since);
    IdsDistinctAndComplete(kills);
    if HasId(kills, id) {
      var i :| 0 <= i < |kills| && kills[i].id == id;
      assert HasKill(kills, id, kills[i].finishedAt);
      PodKillsExact(text, pod, since, id, kills[i].finishedAt);
    }
    if at :| at >= since && Shows(text, pod, id, at) {
      PodKillsExact(text, pod, since, id, at);
      var i :| 0 <= i < |kills| && kills[i].id == id && kills[i].finishedAt == at;
      assert HasId(kills, id);
    }
  }

  predicate SetsLimit(container: Container, name: string) {
    container.name == name && container.memoryLimit.Some?
  }

  /** The limit of the first container of this name which sets one, or none. */
  lemma {:induction false} MemoryLimitIsFirst(containers: seq<Container>, name: string, i: nat)
    requires i <= |containers| && forall j :: 0 <= j < i ==> !SetsLimit(containers[j], name)
    requires i < |containers| ==> SetsLimit(containers[i], name)
    ensures MemoryLimit(containers, name) == if i < |containers| then containers[i].memoryLimit.value else ""
  {
    if i > 0 {
      MemoryLimitIsFirst(containers[1..], name, i - 1);
    }
  }

  /** The later the bound, the fewer kills. */
  lemma ReportedShrinks(text: Text, pod: Pod, since: Time, since': Time, id: string)
    requires since <= since' && Reported(text, pod, since', id)
    ensures Reported(text, pod, since, id)
  {
    ReportedIff(text, pod, since, id);
    ReportedIff(text, pod, since', id);
  }

  /** A container was restarted after this kill: its termination moved from State to LastTerminationState. */
  predicate KillMoved(text: Text, podUid: string, statuses: seq<ContainerStatus>, statuses': seq<ContainerStatus>,
                      i: nat, next: Option<Terminated>, id: string, at: Time) {
    i < |statuses| && Records(text, podUid, statuses[i], statuses[i].state, id, at) &&
    statuses' == statuses[i := statuses[i].(state := next, lastTerminationState := statuses[i].state)]
  }

  /** One of the init containers, or of the others, was restarted. */
  predicate Restarted(text: Text, pod: Pod, pod': Pod, i: nat, next: Option<Terminated>, id: string, at: Time) {
    || (KillMoved(text, pod.uid, pod.initContainerStatuses, pod'.initContainerStatuses, i, next, id, at) &&
        pod' == pod.(initContainerStatuses := pod'.initContainerStatuses))
    || (KillMoved(text, pod.uid, pod.containerStatuses, pod'.containerStatuses, i, next, id, at) &&
        pod' == pod.(containerStatuses := pod'.containerStatuses))
  }

  lemma MovedKillIsRecorded(text: Text, podUid: string, statuses: seq<ContainerStatus>, statuses': seq<ContainerStatus>,
                            i: nat, next: Option<Terminated>, id: string, at: Time)
    requires KillMoved(text, podUid, statuses, statuses', i, next, id, at)
    ensures ListRecords(text, podUid, statuses, id, at) && ListRecords(text, podUid, statuses', id, at)
  {
    assert StatusRecords(text, podUid, statuses[i], id, at);
    assert StatusRecords(text, podUid, statuses'[i], id, at);
  }

  /** A kill keeps its id, and so its event UID, when the container restarts. */
  lemma RestartKeepsId(text: Text, pod: Pod, pod': Pod, i: nat, next: Option<Terminated>, id: string, at: Time, since: Time)
    requires Restarted(text, pod, pod', i, next, id, at) && since <= at
    ensures Reported(text, pod, since, id) && Reported(text, pod', since, id)
  {
    if KillMoved(text, pod.uid, pod.initContainerStatuses, pod'.initContainerStatuses, i, next, id, at) {
      MovedKillIsRecorded(text, pod.uid, pod.initContainerStatuses, pod'.initContainerStatuses, i, next, id, at);
    } else {
      MovedKillIsRecorded(text, pod.uid, pod.containerStatuses, pod'.containerStatuses, i, next, id, at);
    }
    assert Shows(text, pod, id, at) && Shows(text, pod', id, at);
    ReportedIff(text, pod, since, id);
    ReportedIff(text, pod', since, id);
  }

  /** This termination of this container of the pod led to the kill. */
  predicate KillOfTermination(text: Text, podUid: string, kind: string, name: string, limits: seq<Container>, since: Time,
                              t: Terminated, kill: Kill) {
    && t.reason == "OOMKilled" && t.finishedAt >= since && kill.finishedAt == t.finishedAt
    && kill.container == name && kill.fieldPath == "spec." + kind + "{" + name + "}"
    && kill.limit == MemoryLimit(limits, name)
    && kill.id == if t.containerID != "" then t.containerID
                  else podUid + "/" + name + "/" + text.rfc3339(t.finishedAt / SECOND)
  }

  predicate KillOfStatus(text: Text, podUid: string, kind: string, status: ContainerStatus, limits: seq<Container>, since: Time, kill: Kill) {
    || (status.state.Some? && KillOfTermination(text, podUid, kind, status.name, limits, since, status.state.value, kill))
    || (status.lastTerminationState.Some? &&
        KillOfTermination(text, podUid, kind, status.name, limits, since, status.lastTerminationState.value, kill))
  }

  ghost predicate KillOfList(text: Text, podUid: string, kind: string, statuses: seq<ContainerStatus>, limits: seq<Container>, since: Time, kill: Kill) {
    exists i :: 0 <= i < |statuses| && KillOfStatus(text, podUid, kind, statuses[i], limits, since, kill)
  }

  lemma {:induction false} ListKillsDescribe(text: Text, podUid: string, kind: string, statuses: seq<ContainerStatus>,
                                             limits: seq<Container>, since: Time, kill: Kill)
    requires kill in ListKills(text, podUid, kind, statuses, limits, since)
    ensures KillOfList(text, podUid, kind, statuses, limits, since, kill)
  {
    var init, last := statuses[..|statuses| - 1], statuses[|statuses| - 1];
    if kill in ListKills(text, podUid, kind, init, limits, since) {
      ListKillsDescribe(text, podUid, kind, init, limits, since, kill);
      var i :| 0 <= i < |init| && KillOfStatus(text, podUid, kind, init[i], limits, since, kill);
      assert statuses[i] == init[i];
    } else {
      assert KillOfStatus(text, podUid, kind, statuses[|statuses| - 1], limits, since, kill);
    }
  }

  /** The event names the pod and its container, and says when and why the container was killed. */
  predicate Describes(text: Text, pod: Pod, kill: Kill, event: Event) {
    && event.namespace == pod.namespace && event.involvedObject.kind == "Pod"
    && event.involvedObject.namespace == pod.namespace && event.involvedObject.name == pod.name
    && event.involvedObject.uid == pod.uid && event.involvedObject.fieldPath == kill.fieldPath
    && event.reason == "OOMKilled" && event.eventType == "Warning" && event.count == 1
    && event.sourceComponent == "kigeon" && event.sourceHost == pod.nodeName
    && event.firstTimestamp == event.lastTimestamp == Some(kill.finishedAt) && event.eventTime == None
    && event.uid == "kigeon-oomkilled-" + text.digest(kill.id)
    && event.name == pod.name + ".oomkilled." + text.digest(kill.id)
    && event.message == "Container " + kill.container + " was killed because it ran out of memory" +
                        (if kill.limit == "" then "" else " (memory limit " + kill.limit + ")")
  }

  ghost predicate DescribesSome(text: Text, pod: Pod, since: Time, event: Event) {
    exists kill ::
      && Describes(text, pod, kill, event)
      && (KillOfList(text, pod.uid, "initContainers", pod.initContainerStatuses, pod.initContainers, since, kill) ||
          KillOfList(text, pod.uid, "containers", pod.containerStatuses, pod.containers, since, kill))
  }

  /** Every reported event describes a recent OOM kill which the status of its pod shows. */
  lemma EventsDescribeKills(text: Text, pod: Pod, since: Time, event: Event)
    requires event in KilledEvents(text, pod, since)
    ensures DescribesSome(text, pod, since, event)
  {
    hide ListKills;
    var kills := PodKills(text, pod, since);
    var events := EventsOf(text, pod, FirstById(kills));
    var i :| 0 <= i < |events| && events[i] == event;
    var kill := FirstById(kills)[i];
    IdsDistinctAndComplete(kills);
    if kill in ListKills(text, pod.uid, INIT_CONTAINERS, pod.initContainerStatuses, pod.initContainers, since) {
      ListKillsDescribe(text, pod.uid, INIT_CONTAINERS, pod.initContainerStatuses, pod.initContainers, since, kill);
    } else {
      ListKillsDescribe(text, pod.uid, CONTAINERS, pod.containerStatuses, pod.containers, since, kill);
    }
    assert Describes(text, pod, kill, event);
  }

  predicate OfInitContainer(kill: Kill) {
    |kill.fieldPath| > 5 && kill.fieldPath[5] == 'i'
  }

  /** Init containers come first. */
  lemma InitContainersFirst(text: Text, pod: Pod, since: Time, i: nat, j: nat)
    requires i < j < |PodKills(text, pod, since)| && OfInitContainer(PodKills(text, pod, since)[j])
    ensures OfInitContainer(PodKills(text, pod, since)[i])
  {
    hide ListKills, KillOfList;
    var kills := PodKills(text, pod, since);
    var inits := ListKills(text, pod.uid, INIT_CONTAINERS, pod.initContainerStatuses, pod.initContainers, since);
    if i < |inits| {
      assert kills[i] in inits;
      KindOfList(text, pod.uid, INIT_CONTAINERS, pod.initContainerStatuses, pod.initContainers, since, kills[i]);
    } else {
      assert kills[j] in ListKills(text, pod.uid, CONTAINERS, pod.containerStatuses, pod.containers, since);
      KindOfList(text, pod.uid, CONTAINERS, pod.containerStatuses, pod.containers, since, kills[j]);
    }
  }

  lemma KindOfList(text: Text, podUid: string, kind: string, statuses: seq<ContainerStatus>, limits: seq<Container>, since: Time, kill: Kill)
    requires kill in ListKills(text, podUid, kind, statuses, limits, since) && kind != ""
    ensures |kill.fieldPath| > 5 && kill.fieldPath[5] == kind[0]
  {
    hide ListKills;
    ListKillsDescribe(text, podUid, kind, statuses, limits, since, kill);
    assert |"spec."| == 5;
    assert ("spec." + kind)[5] == kind[0];
  }

  lemma ListKillsOneMore(text: Text, podUid: string, kind: string, statuses: seq<ContainerStatus>, last: ContainerStatus,
                         limits: seq<Container>, since: Time)
    ensures ListKills(text, podUid, kind, statuses + [last], limits, since) ==
            ListKills(text, podUid, kind, statuses, limits, since) +
            StatusKills(text, podUid, last, FieldPath(kind, last.name), MemoryLimit(limits, last.name), since)
  {
    assert (statuses + [last])[..|statuses|] == statuses;
  }

  /** The containers of a list come in their order. */
  lemma {:induction false} ListKillsAppend(text: Text, podUid: string, kind: string, first: seq<ContainerStatus>,
                                           second: seq<ContainerStatus>, limits: seq<Container>, since: Time)
    ensures ListKills(text, podUid, kind, first + second, limits, since) ==
            ListKills(text, podUid, kind, first, limits, since) + ListKills(text, podUid, kind, second, limits, since)
  {
    if second == [] {
      assert first + second == first;
    } else {
      hide ListKills, StatusKills;
      var init, last := second[..|second| - 1], second[|second| - 1];
      var kills := StatusKills(text, podUid, last, FieldPath(kind, last.name), MemoryLimit(limits, last.name), since);
      assert first + second == (first + init) + [last] && second == init + [last];
      calc {
        ListKills(text, podUid, kind, first + second, limits, since);
        { ListKillsOneMore(text, podUid, kind, first + init, last, limits, since); }
        ListKills(text, podUid, kind, first + init, limits, since) + kills;
        { ListKillsAppend(text, podUid, kind, first, init, limits, since); }
        (ListKills(text, podUid, kind, first, limits, since) + ListKills(text, podUid, kind, init, limits, since)) + kills;
        ListKills(text, podUid, kind, first, limits, since) + (ListKills(text, podUid, kind, init, limits, since) + kills);
        { ListKillsOneMore(text, podUid, kind, init, last, limits, since); }
        ListKills(text, podUid, kind, first, limits, since) + ListKills(text, podUid, kind, second, limits, since);
      }
    }
  }

  predicate Recent(state: Option<Terminated>, since: Time) {
    state.Some? && state.value.reason == "OOMKilled" && state.value.finishedAt >= since
  }

  /** The present state of a container comes before its last termination. */
  lemma StateComesFirst(text: Text, podUid: string, kind: string, status: ContainerStatus, limits: seq<Container>, since: Time)
    ensures var kills := ListKills(text, podUid, kind, [status], limits, since);
            && |kills| == (if Recent(status.state, since) then 1 else 0) + (if Recent(status.lastTerminationState, since) then 1 else 0)
            && (Recent(status.state, since) ==>
                  KillOfTermination(text, podUid, kind, status.name, limits, since, status.state.value, kills[0]))
            && (Recent(status.lastTerminationState, since) ==>
                  KillOfTermination(text, podUid, kind, status.name, limits, since, status.lastTerminationState.value, kills[|kills| - 1]))
  {
    assert [status][..0] == [];
  }
}
