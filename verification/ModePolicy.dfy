/** Which mode applies and when the cloud is tried, told from the events alone. */
module ModePolicy {
  import opened Mode

  /** The mode of the last configuration that was accepted, or the one at the start. */
  function ModeAfter(configured: string, events: seq<Event>): string {
    if events == [] then configured
    else
      match events[|events| - 1]
      case Configure(mode) =>
        if mode in {"online", "hybrid", "offline"} then mode else ModeAfter(configured, events[..|events| - 1])
      case _ => ModeAfter(configured, events[..|events| - 1])
  }

  /** The failures since the last success or accepted configuration. */
  function Row(events: seq<Event>): nat {
    if events == [] then 0
    else
      match events[|events| - 1]
      case Failure(_) => Row(events[..|events| - 1]) + 1
      case Success => 0
      case Configure(mode) => if mode in {"online", "hybrid", "offline"} then 0 else Row(events[..|events| - 1])
  }

  /** When the last failure was reported; only meaningful after one. */
  function LastFailure(events: seq<Event>): real {
    if events == [] then 0.0
    else if events[|events| - 1].Failure? then events[|events| - 1].now
    else LastFailure(events[..|events| - 1])
  }

  /** Enough failures in a row for hybrid mode to give up on the cloud. */
  predicate GivenUp(events: seq<Event>, failThreshold: int) {
    Row(events) > 0 && Row(events) >= failThreshold
  }

  lemma {:induction false} StateFollows(configured: string, failThreshold: int, retryInterval: real, events: seq<Event>)
    ensures var m := After(Start(configured, failThreshold, retryInterval), events);
            && m.configured == ModeAfter(configured, events)
            && m.failThreshold == failThreshold && m.retryInterval == retryInterval
            && (m.configured == "hybrid" ==>
                  && m.failCount == Row(events)
                  && (m.inOffline <==> GivenUp(events, failThreshold))
                  && (m.inOffline ==> m.lastOfflineTime == LastFailure(events)))
            && (m.configured != "hybrid" && m.configured != "offline" ==> !m.inOffline)
  {
    if events != [] { StateFollows(configured, failThreshold, retryInterval, events[..|events| - 1]); }
  }

  /**
   The cloud is never tried in offline mode. In hybrid mode it is tried unless
   enough failures came in a row and the retry interval since the last one is
   not over; a failed probe starts the interval again. Otherwise it always is.
   */
  lemma CloudIsTriedIff(configured: string, failThreshold: int, retryInterval: real, events: seq<Event>, now: real)
    ensures var m := After(Start(configured, failThreshold, retryInterval), events);
            var mode := ModeAfter(configured, events);
            ShouldTryCloud(m, now) <==>
              && mode != "offline"
              && (mode == "hybrid" && GivenUp(events, failThreshold) ==> now - LastFailure(events) >= retryInterval)
  {
    StateFollows(configured, failThreshold, retryInterval, events);
  }

  /** The proxy is offline in offline mode, and in hybrid mode after enough failures in a row. */
  lemma OfflineIff(configured: string, failThreshold: int, retryInterval: real, events: seq<Event>)
    ensures var m := After(Start(configured, failThreshold, retryInterval), events);
            var mode := ModeAfter(configured, events);
            IsOffline(m) <==> mode == "offline" || (mode == "hybrid" && GivenUp(events, failThreshold))
  {
    StateFollows(configured, failThreshold, retryInterval, events);
    OfflineMatchesRuntime(configured, failThreshold, retryInterval, events);
  }
}
