/** Looking up pods with caches for deleted and missing ones (internal/pods/informer.go). */
module PodInformer {
  import opened Base
  import opened Pods

  const NOT_FOUND_TTL: Time := MINUTE
  const DEFAULT_DELETED_POD_RETENTION: Time := 5 * MINUTE

  function PodKey(namespace: string, name: string): string {
    namespace + "/" + name
  }

  /** Names of Kubernetes objects contain no slash; between such names, the key tells which pod is meant. */
  predicate SamePod(namespace: string, name: string, namespace': string, name': string) {
    '/' !in name && '/' !in name' ==> namespace == namespace' && name == name'
  }

  /** The last slash of the key is the one between namespace and name. */
  lemma LastSlash(namespace: string, name: string)
    requires '/' !in name
    ensures var key := PodKey(namespace, name);
            |namespace| < |key| && key[|namespace|] == '/' && key[..|namespace|] == namespace && key[|namespace| + 1..] == name &&
            forall i :: |namespace| < i < |key| ==> key[i] != '/'
  {
    var key := PodKey(namespace, name);
    forall i | |namespace| < i < |key| ensures key[i] != '/' {
      assert key[i] == name[i - |namespace| - 1];
    }
  }

  lemma PodKeyInjective(namespace: string, name: string, namespace': string, name': string)
    requires PodKey(namespace, name) == PodKey(namespace', name')
    ensures SamePod(namespace, name, namespace', name')
  {
    if '/' !in name && '/' !in name' {
      hide PodKey;
      LastSlash(namespace, name);
      LastSlash(namespace', name');
    }
  }

  /** Answers of the Kubernetes API, and of GetPod. */
  datatype Answer = Found(pod: Pod) | NotFound | OtherError

  /** An entry of an expiring cache. */
  datatype Expiring<T> = Expiring(value: T, until: Time)

  datatype Deletion = Deletion(at: Time, pod: Pod) {
    function Key(): string { PodKey(pod.namespace, pod.name) }
  }

  datatype Miss = Miss(namespace: string, name: string, at: Time) {
    function Key(): string { PodKey(namespace, name) }
  }

  /** The last deletion of this key. */
  ghost predicate LastDeletion(deletions: seq<Deletion>, key: string, i: int) {
    0 <= i < |deletions| && deletions[i].Key() == key && forall j :: i < j < |deletions| ==> deletions[j].Key() != key
  }

  ghost predicate LastMiss(misses: seq<Miss>, key: string, i: int) {
    0 <= i < |misses| && misses[i].Key() == key && forall j :: i < j < |misses| ==> misses[j].Key() != key
  }

  /** Some deletion of the pod was observed within the retention. */
  ghost predicate RecentlyDeleted(deletions: seq<Deletion>, key: string, now: Time, retention: Time) {
    exists i :: 0 <= i < |deletions| && deletions[i].Key() == key && now < deletions[i].at + retention
  }

  /** The API denied the pod within the last minute. */
  ghost predicate RecentlyMissed(misses: seq<Miss>, key: string, now: Time) {
    exists i :: 0 <= i < |misses| && misses[i].Key() == key && now < misses[i].at + 60 * SECOND
  }

  ghost predicate DeletionKept(deletions: seq<Deletion>, key: string, entry: Expiring<Pod>, retention: Time) {
    exists i :: LastDeletion(deletions, key, i) && entry == Expiring(deletions[i].pod, deletions[i].at + retention)
  }

  /** The cache holds the last deletion of every deleted pod. */
  ghost predicate DeletionsOk(deleted: map<string, Expiring<Pod>>, deletions: seq<Deletion>, now: Time, retention: Time) {
    (forall i :: 0 <= i < |deletions| ==> deletions[i].at <= now && deletions[i].Key() in deleted) &&
    (forall i, j :: 0 <= i < j < |deletions| ==> deletions[i].at <= deletions[j].at) &&
    (forall key :: key in deleted ==> DeletionKept(deletions, key, deleted[key], retention))
  }

  ghost predicate MissKept(misses: seq<Miss>, key: string, entry: Expiring<()>) {
    exists i :: LastMiss(misses, key, i) && entry.until == misses[i].at + NOT_FOUND_TTL
  }

  /** Two denials of one pod are at least a minute apart. */
  ghost predicate MissesApart(misses: seq<Miss>) {
    forall i, j :: 0 <= i < j < |misses| && misses[i].Key() == misses[j].Key() ==> misses[j].at >= misses[i].at + 60 * SECOND
  }

  /** The cache holds the last denial of every missing pod. */
  ghost predicate MissesOk(notFound: map<string, Expiring<()>>, misses: seq<Miss>, now: Time) {
    (forall i :: 0 <= i < |misses| ==> misses[i].at <= now && misses[i].Key() in notFound) &&
    (forall i, j :: 0 <= i < j < |misses| ==> misses[i].at <= misses[j].at) &&
    (forall key :: key in notFound ==> MissKept(misses, key, notFound[key])) &&
    MissesApart(misses)
  }

  lemma DeletedIsRecent(deleted: map<string, Expiring<Pod>>, deletions: seq<Deletion>, now: Time, retention: Time, key: string)
    requires DeletionsOk(deleted, deletions, now, retention)
    ensures key in deleted && now < deleted[key].until <==> RecentlyDeleted(deletions, key, now, retention)
  {
  }

  lemma LastDeletionIsKept(deleted: map<string, Expiring<Pod>>, deletions: seq<Deletion>, now: Time, retention: Time, key: string)
    requires DeletionsOk(deleted, deletions, now, retention) && key in deleted
    ensures DeletionKept(deletions, key, deleted[key], retention)
  {
  }

  lemma NotFoundIsRecent(notFound: map<string, Expiring<()>>, misses: seq<Miss>, now: Time, key: string)
    requires MissesOk(notFound, misses, now)
    ensures key in notFound && now < notFound[key].until <==> RecentlyMissed(misses, key, now)
  {
  }

  lemma RecordDeletion(deleted: map<string, Expiring<Pod>>, deletions: seq<Deletion>, now: Time, retention: Time, pod: Pod)
    requires DeletionsOk(deleted, deletions, now, retention)
    ensures DeletionsOk(deleted[PodKey(pod.namespace, pod.name) := Expiring(pod, now + retention)],
                        deletions + [Deletion(now, pod)], now, retention)
  {
    var key := PodKey(pod.namespace, pod.name);
    var deletions' := deletions + [Deletion(now, pod)];
    var deleted' := deleted[key := Expiring(pod, now + retention)];
    forall other | other in deleted' ensures DeletionKept(deletions', other, deleted'[other], retention) {
      if other == key {
        assert LastDeletion(deletions', key, |deletions|);
      } else {
        assert DeletionKept(deletions, other, deleted[other], retention);
        var i :| LastDeletion(deletions, other, i) && deleted[other] == Expiring(deletions[i].pod, deletions[i].at + retention);
        assert LastDeletion(deletions', other, i);
      }
    }
  }

  lemma RecordMiss(notFound: map<string, Expiring<()>>, misses: seq<Miss>, now: Time, namespace: string, name: string)
    requires MissesOk(notFound, misses, now) && !RecentlyMissed(misses, PodKey(namespace, name), now)
    ensures MissesOk(notFound[PodKey(namespace, name) := Expiring((), now + NOT_FOUND_TTL)],
                     misses + [Miss(namespace, name, now)], now)
    ensures RecentlyMissed(misses + [Miss(namespace, name, now)], PodKey(namespace, name), now)
  {
    var key := PodKey(namespace, name);
    var misses' := misses + [Miss(namespace, name, now)];
    var notFound' := notFound[key := Expiring((), now + NOT_FOUND_TTL)];
    assert misses'[|misses|] == Miss(namespace, name, now) && misses'[|misses|].Key() == key;
    forall other | other in notFound' ensures MissKept(misses', other, notFound'[other]) {
      if other == key {
        assert LastMiss(misses', key, |misses|);
      } else {
        assert MissKept(misses, other, notFound[other]);
        var i :| LastMiss(misses, other, i) && notFound[other].until == misses[i].at + NOT_FOUND_TTL;
        assert LastMiss(misses', other, i);
      }
    }
  }

  class Informer {
    const retention: Time
    var now: Time
    var started: bool
    var lister: map<string, Pod>
    var deleted: map<string, Expiring<Pod>>
    var notFound: map<string, Expiring<()>>
    ghost var deletions: seq<Deletion>   // what the delete handler was told
    ghost var misses: seq<Miss>          // when the API answered that a pod does not exist

    constructor (retention: Time, now: Time)
      requires retention >= 0
      ensures Valid() && this.now == now && !started && lister == map[]
      ensures this.retention == if retention == 0 then 5 * MINUTE else retention
    {
      this.retention := if retention == 0 then DEFAULT_DELETED_POD_RETENTION else retention;
      this.now, started := now, false;
      lister, deleted, notFound := map[], map[], map[];
      deletions, misses := [], [];
    }

    /** Every live pod has its own key, and the caches agree with the history. */
    ghost predicate Valid()
      reads this
    {
      retention > 0 && (forall key :: key in lister ==> key == PodKey(lister[key].namespace, lister[key].name)) && DeletionsOk(deleted, deletions, now, retention) && MissesOk(notFound, misses, now)
    }

    method Elapse(time: nat)
      requires Valid()
      modifies this`now
      ensures Valid() && now == old(now) + time
    {
      now := now + time;
    }

    method Observe(pod: Pod)
      requires Valid()
      modifies this`lister
      ensures Valid() && lister == old(lister)[PodKey(pod.namespace, pod.name) := pod]
    {
      lister := lister[PodKey(pod.namespace, pod.name) := pod];
    }

    /** The informer drops a pod from its cache before it tells the handler. */
    method Drop(namespace: string, name: string)
      requires Valid()
      modifies this`lister
      ensures Valid() && lister == old(lister) - {PodKey(namespace, name)}
    {
      lister := lister - {PodKey(namespace, name)};
    }

    /** The handler keeps a deleted pod for the retention. */
    method HandleDelete(obj: Object)
      requires Valid()
      modifies this`deleted, this`deletions
      ensures Valid()
      ensures deletions == old(deletions) + if ToPod(obj).None? then [] else [Deletion(now, ToPod(obj).value)]
    {
      var pod := ToPod(obj);
      if pod.Some? {
        RecordDeletion(deleted, deletions, now, retention, pod.value);
        deleted := deleted[PodKey(pod.value.namespace, pod.value.name) := Expiring(pod.value, now + retention)];
        deletions := deletions + [Deletion(now, pod.value)];
      }
    }

    method SetStarted()
      requires Valid()
      modifies this`started
      ensures Valid() && started
    {
      started := true;
    }

    ghost predicate Deleted(key: string)
      reads this
    {
      RecentlyDeleted(deletions, key, now, retention)
    }

    ghost predicate Missed(key: string)
      reads this
    {
      RecentlyMissed(misses, key, now)
    }

    /**
     The answer follows from what was observed: the live pod, else one deleted
     recently, else a recent denial, else what the API says now. Whatever comes
     from a cache is about the pod in question.
     */
    method GetPod(namespace: string, name: string, api: Answer) returns (r: Answer, asked: bool)
      requires Valid()
      modifies this`notFound, this`misses
      ensures Valid()
      ensures var key := PodKey(namespace, name);
              asked == (!started || (key !in lister && !Deleted(key) && !old(Missed(key))))
      ensures misses == old(misses) + if asked && started && api.NotFound? then [Miss(namespace, name, now)] else []
      ensures var key := PodKey(namespace, name);
              if asked then r == api
              else if key in lister then r == Found(lister[key])
              else if Deleted(key) then exists i :: LastDeletion(deletions, key, i) && r == Found(deletions[i].pod)
              else r == NotFound && old(Missed(key))
      ensures var key := PodKey(namespace, name);
              r == NotFound && started ==> key !in lister && !Deleted(key) && Missed(key)
      ensures !asked && r.Found? ==> SamePod(r.pod.namespace, r.pod.name, namespace, name)
      ensures !asked && r.NotFound? ==> DeniedFor(namespace, name)
      ensures !asked ==> !r.OtherError?
    {
      hide DeletionsOk, MissesOk, RecentlyDeleted, RecentlyMissed, PodKey, SamePod;
      var key := PodKey(namespace, name);
      if !started {
        return api, true;
      }
      if key in lister {
        PodKeyInjective(lister[key].namespace, lister[key].name, namespace, name);
        return Found(lister[key]), false;
      }
      DeletedIsRecent(deleted, deletions, now, retention, key);
      if key in deleted && now < deleted[key].until {
        LastDeletionIsKept(deleted, deletions, now, retention, key);
        DeletedPodIsMeant(deletions, namespace, name, deleted[key], retention);
        return Found(deleted[key].value), false;
      }
      NotFoundIsRecent(notFound, misses, now, key);
      if key in notFound && now < notFound[key].until {
        assert DeniedFor(namespace, name) by { DenialIsMeant(misses, namespace, name, now); }
        return NotFound, false;
      }
      if api.NotFound? {
        RecordMiss(notFound, misses, now, namespace, name);
        notFound := notFound[key := Expiring((), now + NOT_FOUND_TTL)];
        misses := misses + [Miss(namespace, name, now)];
      }
      return api, true;
    }

    /** The API denied this very pod less than a minute ago. */
    ghost predicate DeniedFor(namespace: string, name: string)
      reads this
    {
      DeniedRecently(misses, namespace, name, now)
    }
  }

  ghost predicate DeniedRecently(misses: seq<Miss>, namespace: string, name: string, now: Time) {
    exists i :: 0 <= i < |misses| && now < misses[i].at + 60 * SECOND &&
                SamePod(misses[i].namespace, misses[i].name, namespace, name)
  }

  lemma DeletedPodIsMeant(deletions: seq<Deletion>, namespace: string, name: string, entry: Expiring<Pod>, retention: Time)
    requires DeletionKept(deletions, PodKey(namespace, name), entry, retention)
    ensures SamePod(entry.value.namespace, entry.value.name, namespace, name)
  {
    PodKeyInjective(entry.value.namespace, entry.value.name, namespace, name);
  }

  lemma DenialIsMeant(misses: seq<Miss>, namespace: string, name: string, now: Time)
    requires RecentlyMissed(misses, PodKey(namespace, name), now)
    ensures DeniedRecently(misses, namespace, name, now)
  {
    var i :| 0 <= i < |misses| && misses[i].Key() == PodKey(namespace, name) && now < misses[i].at + 60 * SECOND;
    PodKeyInjective(misses[i].namespace, misses[i].name, namespace, name);
  }
}
