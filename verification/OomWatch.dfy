/** Reporting OOM kills of observed pods (OnOOMKilled in internal/pods/informer.go). */
module OomWatch {
  import opened Base
  import opened Events
  import opened Pods
  import opened OomKills
  import opened OomKillFacts

  function Uids(events: seq<Event>): set<string> {
    set i | 0 <= i < |events| :: events[i].uid
  }

  /** The events whose UID is not known, in order. */
  function Unknown(events: seq<Event>, known: set<string>): seq<Event> {
    if events == [] then []
    else
      var init, last := events[..|events| - 1], events[|events| - 1];
      Unknown(init, known) + if last.uid in known then [] else [last]
  }

  lemma UnknownSnoc(events: seq<Event>, known: set<string>, i: nat)
    requires i < |events|
    ensures Unknown(events[..i + 1], known) ==
            Unknown(events[..i], known) + if events[i].uid in known then [] else [events[i]]
  {
    assert events[..i + 1][..i] == events[..i];
  }

  ghost function Known(text: Text, oldPod: Option<Pod>, since: Time): set<string> {
    if oldPod.None? then {} else Uids(KilledEvents(text, oldPod.value, since))
  }

  ghost function NewKills(text: Text, oldPod: Option<Pod>, newPod: Pod, since: Time): seq<Event> {
    Unknown(KilledEvents(text, newPod, since), Known(text, oldPod, since))
  }

  lemma {:induction false} UnknownSubset(events: seq<Event>, known: set<string>, event: Event)
    requires event in Unknown(events, known)
    ensures event in events && event.uid !in known
  {
    var init, last := events[..|events| - 1], events[|events| - 1];
    if event in Unknown(init, known) {
      UnknownSubset(init, known, event);
    } else {
      assert last.uid !in known && event == last;
    }
  }

  lemma NewKillsAreRecent(text: Text, oldPod: Option<Pod>, newPod: Pod, since: Time, event: Event)
    requires event in NewKills(text, oldPod, newPod, since)
    ensures event.firstTimestamp.Some? && event.firstTimestamp.value >= since
  {
    hide KilledEvents, Known;
    UnknownSubset(KilledEvents(text, newPod, since), Known(text, oldPod, since), event);
    KilledEventsAreRecent(text, newPod, since, event);
  }

  lemma KilledEventsAreRecent(text: Text, pod: Pod, since: Time, event: Event)
    requires event in KilledEvents(text, pod, since)
    ensures event.firstTimestamp.Some? && event.firstTimestamp.value >= since
  {
    var kills := PodKills(text, pod, since);
    IdsDistinctAndComplete(kills);
    var events := EventsOf(text, pod, FirstById(kills));
    var i :| 0 <= i < |events| && events[i] == event;
    var kill := FirstById(kills)[i];
    assert kill in kills;
    assert HasKill(kills, kill.id, kill.finishedAt);
    PodKillsExact(text, pod, since, kill.id, kill.finishedAt);
  }

  class Watcher {
    const text: Text
    const maxAge: Time
    var reported: seq<Event>   // the calls of fn

    constructor (text: Text, maxAge: Time)
      ensures this.text == text && this.maxAge == maxAge && reported == []
    {
      this.text, this.maxAge, reported := text, maxAge, [];
    }

    method KnownUids(oldPod: Option<Pod>, since: Time) returns (known: set<string>)
      ensures known == Known(text, oldPod, since)
    {
      known := {};
      if oldPod.Some? {
        var events := OOMKilledEvents(text, oldPod.value, since);
        for i := 0 to |events|
          invariant known == Uids(events[..i])
        {
          known := known + {events[i].uid};
        }
        assert events[..|events|] == events;
      }
    }

    method Notify(oldPod: Option<Pod>, newPod: Pod, now: Time)
      modifies this
      ensures reported == old(reported) + NewKills(text, oldPod, newPod, now - maxAge)
    {
      hide KilledEvents;
      var since := now - maxAge;
      var known := KnownUids(oldPod, since);
      var events := OOMKilledEvents(text, newPod, since);
      Forward(events, known);
    }

    method Forward(events: seq<Event>, known: set<string>)
      modifies this
      ensures reported == old(reported) + Unknown(events, known)
    {
      for i := 0 to |events|
        invariant reported == old(reported) + Unknown(events[..i], known)
      {
        UnknownSnoc(events, known, i);
        if events[i].uid !in known {
          reported := reported + [events[i]];
        }
      }
      assert events[..|events|] == events;
    }

    method HandleAdd(obj: Object, now: Time)
      modifies this
      ensures reported == old(reported) +
                          if ToPod(obj).Some? then NewKills(text, None, ToPod(obj).value, now - maxAge) else []
    {
      var pod := ToPod(obj);
      if pod.Some? {
        Notify(None, pod.value, now);
      }
    }

    method HandleUpdate(oldObj: Object, newObj: Object, now: Time)
      modifies this
      ensures reported == old(reported) +
                          if ToPod(newObj).Some? then NewKills(text, ToPod(oldObj), ToPod(newObj).value, now - maxAge) else []
    {
      var newPod := ToPod(newObj);
      if newPod.Some? {
        Notify(ToPod(oldObj), newPod.value, now);
      }
    }
  }

  predicate HasUid(events: seq<Event>, uid: string) {
    exists i :: 0 <= i < |events| && events[i].uid == uid
  }

  lemma {:induction false} UnknownExact(events: seq<Event>, known: set<string>, uid: string)
    ensures HasUid(Unknown(events, known), uid) <==> HasUid(events, uid) && uid !in known
  {
    if events != [] {
      var init, last := events[..|events| - 1], events[|events| - 1];
      UnknownExact(init, known, uid);
      var rest := Unknown(init, known);
      assert rest + [] == rest;
      assert HasUid(events, uid) <==> HasUid(init, uid) || last.uid == uid by {
        if HasUid(init, uid) {
          var i :| 0 <= i < |init| && init[i].uid == uid;
          assert events[i].uid == uid;
        }
        assert events[|events| - 1] == last;
      }
      assert HasUid(rest + [last], uid) <==> HasUid(rest, uid) || last.uid == uid by {
        if HasUid(rest, uid) {
          var i :| 0 <= i < |rest| && rest[i].uid == uid;
          assert (rest + [last])[i].uid == uid;
        }
        assert (rest + [last])[|rest|] == last;
      }
    }
  }

  lemma UnknownOne(event: Event, known: set<string>)
    ensures Unknown([event], known) == if event.uid in known then [] else [event]
  {
    assert [event][..0] == [];
  }

  lemma UnknownOneMore(events: seq<Event>, event: Event, known: set<string>)
    ensures Unknown(events + [event], known) == Unknown(events, known) + Unknown([event], known)
  {
    assert (events + [event])[..|events|] == events;
    UnknownOne(event, known);
  }

  /** Forwarding keeps the order and drops nothing but known events: one by one (UnknownOne), and so for any list. */
  lemma {:induction false} UnknownAppend(first: seq<Event>, second: seq<Event>, known: set<string>)
    ensures Unknown(first + second, known) == Unknown(first, known) + Unknown(second, known)
  {
    if second == [] {
      assert first + second == first;
    } else {
      hide Unknown;
      var init, last := second[..|second| - 1], second[|second| - 1];
      UnknownAppend(first, init, known);
      UnknownOneMore(init, last, known);
      UnknownOneMore(first + init, last, known);
      assert init + [last] == second && (first + init) + [last] == first + second;
    }
  }

  datatype Observation = Observation(at: Time, pod: Pod)

  /** The calls of fn for observation k of a pod which is added first and updated afterwards. */
  ghost function ReportedAt(text: Text, maxAge: Time, obs: seq<Observation>, k: nat): seq<Event>
    requires k < |obs|
  {
    NewKills(text, if k == 0 then None else Some(obs[k - 1].pod), obs[k].pod, obs[k].at - maxAge)
  }

  /** Terminations do not change once recorded: every id has one finishing time. */
  ghost predicate Stable(text: Text, obs: seq<Observation>, finished: string -> Time) {
    forall k, id, at {:trigger Shows(text, obs[k].pod, id, at)} ::
      0 <= k < |obs| && Shows(text, obs[k].pod, id, at) ==> at == finished(id)
  }

  /** The truncated digest does not confuse the ids in play. */
  ghost predicate NoCollision(text: Text, ids: set<string>) {
    forall a, b :: a in ids && b in ids && text.digest(a) == text.digest(b) ==> a == b
  }

  ghost predicate Observed(text: Text, obs: seq<Observation>, ids: set<string>) {
    forall k, id, at {:trigger Shows(text, obs[k].pod, id, at)} ::
      0 <= k < |obs| && Shows(text, obs[k].pod, id, at) ==> id in ids
  }

  lemma UidsOfEvents(text: Text, pod: Pod, since: Time, id: string, ids: set<string>)
    requires NoCollision(text, ids) && id in ids
    requires forall other, at :: Shows(text, pod, other, at) ==> other in ids
    ensures HasUid(KilledEvents(text, pod, since), Uid(text, id)) <==> Reported(text, pod, since, id)
  {
    var kills := FirstById(PodKills(text, pod, since));
    var events := EventsOf(text, pod, kills);
    if HasUid(events, Uid(text, id)) {
      var i :| 0 <= i < |events| && events[i].uid == Uid(text, id);
      SameUid(text, kills[i].id, id);
      assert HasId(kills, kills[i].id);
      ReportedIff(text, pod, since, kills[i].id);
    }
    if HasId(kills, id) {
      var i :| 0 <= i < |kills| && kills[i].id == id;
      assert events[i].uid == Uid(text, id);
    }
  }

  lemma SameUid(text: Text, a: string, b: string)
    requires Uid(text, a) == Uid(text, b)
    ensures text.digest(a) == text.digest(b)
  {
    var prefix := "kigeon-oomkilled-";
    assert text.digest(a) == Uid(text, a)[|prefix|..];
    assert text.digest(b) == Uid(text, b)[|prefix|..];
  }

  lemma ReportsUidIff(text: Text, pod: Pod, since: Time, id: string, at: Time, ids: set<string>)
    requires NoCollision(text, ids) && id in ids
    requires forall other, at' :: Shows(text, pod, other, at') ==> other in ids && (other == id ==> at' == at)
    ensures HasUid(KilledEvents(text, pod, since), Uid(text, id)) <==> Shows(text, pod, id, at) && at >= since
  {
    UidsOfEvents(text, pod, since, id, ids);
    ReportedIff(text, pod, since, id);
  }

  /** fn is called for a kill exactly when the pod newly shows it, not older than maxAge. */
  lemma CalledIff(text: Text, maxAge: Time, obs: seq<Observation>, k: nat, id: string,
                  finished: string -> Time, ids: set<string>)
    requires k < |obs| && Stable(text, obs, finished) && Observed(text, obs, ids) && NoCollision(text, ids) && id in ids
    ensures HasUid(ReportedAt(text, maxAge, obs, k), Uid(text, id)) <==>
            Shows(text, obs[k].pod, id, finished(id)) && finished(id) >= obs[k].at - maxAge &&
            !(k > 0 && Shows(text, obs[k - 1].pod, id, finished(id)))
  {
    hide KilledEvents, Uid, Shows;
    var since, uid := obs[k].at - maxAge, Uid(text, id);
    var before := if k == 0 then None else Some(obs[k - 1].pod);
    UnknownExact(KilledEvents(text, obs[k].pod, since), Known(text, before, since), uid);
    ReportsUidIff(text, obs[k].pod, since, id, finished(id), ids);
    if k > 0 {
      ReportsUidIff(text, obs[k - 1].pod, since, id, finished(id), ids);
      assert uid in Known(text, before, since) <==> HasUid(KilledEvents(text, obs[k - 1].pod, since), uid);
    }
  }

  /** While the pod keeps showing a kill, fn is called for it at the first observation at most. */
  lemma CalledOncePerStretch(text: Text, maxAge: Time, obs: seq<Observation>, first: nat, k: nat, id: string,
                             finished: string -> Time, ids: set<string>)
    requires first < k < |obs| && Stable(text, obs, finished) && Observed(text, obs, ids)
    requires NoCollision(text, ids) && id in ids
    requires forall i :: first <= i <= k ==> Shows(text, obs[i].pod, id, finished(id))
    ensures !HasUid(ReportedAt(text, maxAge, obs, k), Uid(text, id))
  {
    CalledIff(text, maxAge, obs, k, id, finished, ids);
    assert Shows(text, obs[k - 1].pod, id, finished(id));
  }
}
