/** Fetching only what a filter allows (internal/eventsender/filter.go). */
module FilteredFetcher {
  import opened Events

  /** What the wrapped fetcher yields next; a backlog ends with an error or a cancelled wait. */
  datatype Delivery = Delivery(event: Event, ackFails: bool)

  datatype FetchResult = Fetched(event: Event) | NoMessage | AckFailed

  /** The position of the first event which is allowed or whose acknowledgement fails. */
  function FirstStop(allowed: ObjectReference -> bool, backlog: seq<Delivery>): (i: nat)
    ensures i <= |backlog|
    ensures forall j :: 0 <= j < i ==> !allowed(backlog[j].event.involvedObject) && !backlog[j].ackFails
    ensures i < |backlog| ==> allowed(backlog[i].event.involvedObject) || backlog[i].ackFails
  {
    if backlog == [] || allowed(backlog[0].event.involvedObject) || backlog[0].ackFails then 0
    else 1 + FirstStop(allowed, backlog[1..])
  }

  class FilteredFetcher {
    const allowed: ObjectReference -> bool
    var backlog: seq<Delivery>
    var fetched: nat
    var filtered: nat
    var ackAttempts: nat
    var ackErrors: nat

    constructor (allowed: ObjectReference -> bool, backlog: seq<Delivery>)
      ensures this.allowed == allowed && this.backlog == backlog
      ensures fetched == filtered == ackAttempts == ackErrors == 0
    {
      this.allowed, this.backlog := allowed, backlog;
      fetched, filtered, ackAttempts, ackErrors := 0, 0, 0, 0;
    }

    /**
     Returns the first allowed event; exactly the rejected ones before it are
     acknowledged. A failing acknowledgement ends the search without a count.
     */
    method Fetch() returns (r: FetchResult)
      modifies this
      ensures var i := FirstStop(allowed, old(backlog));
              if i == |old(backlog)| then
                r == NoMessage && backlog == [] && filtered == old(filtered) + i && fetched == old(fetched) + i &&
                ackAttempts == old(ackAttempts) + i && ackErrors == old(ackErrors)
              else
                backlog == old(backlog)[i + 1..] && filtered == old(filtered) + i && fetched == old(fetched) + i + 1 &&
                if allowed(old(backlog)[i].event.involvedObject) then
                  r == Fetched(old(backlog)[i].event) && ackAttempts == old(ackAttempts) + i && ackErrors == old(ackErrors)
                else
                  r == AckFailed && ackAttempts == old(ackAttempts) + i + 1 && ackErrors == old(ackErrors) + 1
    {
      ghost var i: nat := 0;
      while true
        invariant i <= |old(backlog)| && backlog == old(backlog)[i..]
        invariant FirstStop(allowed, old(backlog)) == i + FirstStop(allowed, backlog)
        invariant fetched == old(fetched) + i && filtered == old(filtered) + i
        invariant ackAttempts == old(ackAttempts) + i && ackErrors == old(ackErrors)
        decreases |backlog|
      {
        if backlog == [] {
          return NoMessage;
        }
        var delivery := backlog[0];
        backlog, fetched := backlog[1..], fetched + 1;
        if allowed(delivery.event.involvedObject) {
          return Fetched(delivery.event);
        }
        ackAttempts := ackAttempts + 1;
        if delivery.ackFails {
          ackErrors := ackErrors + 1;
          return AckFailed;
        }
        filtered := filtered + 1;
        i := i + 1;
      }
    }
  }
}
