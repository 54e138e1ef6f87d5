/** Event sinks: where the MQTT driver forwards the events it reads. */
module Sinks {

  type Event = string

  const SINK_ERROR: string := "failed to forward MQTT event to sink"

  /** Events reach the sink in order until it refuses one; `sink(n)` is its answer to the n-th. */
  function Forward(sink: nat -> bool, delivered: seq<Event>, events: seq<Event>): (r: (seq<Event>, bool))
    decreases |events|
  {
    if events == [] then (delivered, true)
    else if !sink(|delivered|) then (delivered, false)
    else Forward(sink, delivered + [events[0]], events[1..])
  }

  /** The sink gets the events up to the first it refuses, and all of them exactly when it refuses none. */
  lemma {:induction false} ForwardPrefix(sink: nat -> bool, delivered: seq<Event>, events: seq<Event>)
    ensures var (after, accepted) := Forward(sink, delivered, events);
            && delivered <= after <= delivered + events
            && (accepted <==> after == delivered + events)
            && (!accepted ==> !sink(|after|))
            && (forall i: nat | |delivered| <= i < |after| :: sink(i))
    decreases |events|
  {
    if events == [] {
      assert delivered + events == delivered;
    } else if sink(|delivered|) {
      ForwardPrefix(sink, delivered + [events[0]], events[1..]);
      assert delivered + events == delivered + [events[0]] + events[1..];
    }
  }

  method ForwardAll(sink: nat -> bool, delivered: seq<Event>, events: seq<Event>)
    returns (after: seq<Event>, accepted: bool)
    ensures (after, accepted) == Forward(sink, delivered, events)
  {
    after := delivered;
    for i := 0 to |events|
      invariant Forward(sink, after, events[i..]) == Forward(sink, delivered, events)
    {
      assert events[i..][1..] == events[i + 1..];
      if !sink(|after|) {
        return after, false;
      }
      after := after + [events[i]];
    }
    accepted := true;
  }
}
