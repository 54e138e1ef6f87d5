/**
 * Desired subscriptions, the bounded recovery queue, and their replay on a new session.
 * `MqttDriver` is the mutable driver; `Recovery` is its recovery state together with a history
 * that says what became of every request ever queued.
 */
module MqttRecovery {
  import opened Wrappers
  import opened Widths
  import opened Backoff
  import opened MqttPackets
  import opened Sinks

  /** A routed message: an event, or the result of the command with this id. */
  datatype Message = EventMessage(event: Event) | ResultMessage(commandId: string)

  function EventsOf(messages: seq<Message>): seq<Event> {
    if messages == [] then []
    else if messages[0].EventMessage? then [messages[0].event] + EventsOf(messages[1..])
    else EventsOf(messages[1..])
  }

  /** The events of a read are its event messages, in order. */
  lemma {:induction false} EventsKept(messages: seq<Message>, last: Message)
    ensures EventsOf([]) == []
    ensures EventsOf(messages + [last]) == EventsOf(messages) + if last.EventMessage? then [last.event] else []
  {
    if messages != [] {
      assert (messages + [last])[1..] == messages[1..] + [last];
      EventsKept(messages[1..], last);
    }
  }

  // ----- subscription intents -----

  function Filters(packet: WirePacket): seq<string> {
    match packet
    case PublishPacket(_, _, _, _, _, _, _, _) => []
    case SubscribePacket(_, _, entries, _) => Map((e: SubscriptionEntry) => e.filter, entries)
    case UnsubscribePacket(_, _, filters, _) => filters
  }

  /** A packet names the filters of its entries, and a publish none. */
  lemma FiltersNamed(packet: WirePacket, filter: string)
    ensures filter in Filters(packet) <==>
              match packet
              case PublishPacket(_, _, _, _, _, _, _, _) => false
              case SubscribePacket(_, _, entries, _) => exists entry <- entries :: entry.filter == filter
              case UnsubscribePacket(_, _, filters, _) => filter in filters
  {
    if packet.SubscribePacket? {
      assert forall i | 0 <= i < |packet.entries| :: Filters(packet)[i] == packet.entries[i].filter;
      assert forall i | 0 <= i < |packet.entries| :: packet.entries[i] in packet.entries;
    }
  }

  /** The key a subscription request is tracked under: its first filter. */
  function TopicKey(request: PacketRequest): Option<string> {
    var filters := Filters(request.packet);
    if filters == [] then None else Some(filters[0])
  }

  type Desired = map<string, PacketRequest>

  function Track(desired: Desired, request: PacketRequest): Desired {
    var key := TopicKey(request);
    if key.None? then desired
    else if request.packet.SubscribePacket? then desired[key.value := request]
    else desired - {key.value}
  }

  /** What the program builds itself: one filter to a subscribe or unsubscribe packet. */
  predicate SingleFilter(request: PacketRequest) {
    !request.packet.PublishPacket? ==> |Filters(request.packet)| == 1
  }

  // ----- the queue -----

  /** Appends, dropping the oldest request first when the queue is at its bound. */
  function Pushed(bound: nat, queue: seq<PacketRequest>, request: PacketRequest): seq<PacketRequest> {
    (if |queue| >= bound && queue != [] then queue[1..] else queue) + [request]
  }

  function Overflow(bound: nat, queue: seq<PacketRequest>): seq<PacketRequest> {
    if |queue| >= bound && queue != [] then [queue[0]] else []
  }

  // ----- one exchange -----

  /**
   * One read for the acknowledgement: a timeout is no failure, what arrives need not be the
   * acknowledgement, and a read can decode some packets before it fails.
   */
  datatype Reading = TimedOut | Arrived(messages: seq<Message>) | ReadFailed(decoded: seq<Message>, error: string)

  /** A request is sent and, if that worked, the session is read once. */
  datatype Exchange = SendFailed(error: string) | Sent(reading: Reading) {
    function Outcome(): Result<seq<Message>, string> {
      match this
      case SendFailed(error) => Err(error)
      case Sent(ReadFailed(_, error)) => Err(error)
      case Sent(TimedOut) => Ok([])
      case Sent(Arrived(messages)) => Ok(messages)
    }

    predicate Succeeds() {
      Outcome().Ok?
    }

    /** The events the read decoded, whether or not it then failed. */
    function Decoded(): seq<Event> {
      match this
      case Sent(Arrived(messages)) => EventsOf(messages)
      case Sent(ReadFailed(decoded, _)) => EventsOf(decoded)
      case _ => []
    }
  }

  // ----- one replay -----

  /**
   * Hands requests to a session one by one from exchange `at` on, stopping at the first failure:
   * how many were sent, and the recovered events or the error.
   */
  function Pump(net: nat -> Exchange, at: nat, requests: seq<PacketRequest>): (r: (nat, Result<seq<Event>, string>))
    ensures r.0 <= |requests|
    ensures r.1.Ok? ==> r.0 == |requests|
    decreases |requests|
  {
    if requests == [] then (0, Ok([]))
    else match net(at).Outcome()
      case Err(error) => (if net(at).Sent? then 1 else 0, Err(error))
      case Ok(messages) =>
        var (n, rest) := Pump(net, at + 1, requests[1..]);
        (n + 1, Prepend(EventsOf(messages), rest))
  }

  function Nth(net: nat -> Exchange, at: nat, i: nat): Exchange {
    net(at + i)
  }

  predicate AllSucceed(net: nat -> Exchange, at: nat, n: nat) {
    forall i: nat | i < n :: Nth(net, at, i).Succeeds()
  }

  predicate FirstFailure(net: nat -> Exchange, at: nat, k: nat) {
    !Nth(net, at, k).Succeeds() && AllSucceed(net, at, k)
  }

  /** The events decoded in the first `n` exchanges. */
  function EventsRead(net: nat -> Exchange, at: nat, n: nat): seq<Event> {
    if n == 0 then [] else EventsRead(net, at, n - 1) + Nth(net, at, n - 1).Decoded()
  }

  function Prepend(events: seq<Event>, r: Result<seq<Event>, string>): Result<seq<Event>, string> {
    if r.Ok? then Ok(events + r.value) else r
  }

  lemma PrependTwice(a: seq<Event>, b: seq<Event>, r: Result<seq<Event>, string>)
    ensures Prepend([], r) == r
    ensures Prepend(a, Prepend(b, r)) == Prepend(a + b, r)
  {
    if r.Ok? {
      assert a + (b + r.value) == a + b + r.value;
      assert [] + r.value == r.value;
    }
  }

  ghost predicate Enumerates(order: seq<string>, desired: Desired) {
    && (forall key :: key in order <==> key in desired)
    && (forall i, j :: 0 <= i < j < |order| ==> order[i] != order[j])
  }

  function RequestsOf(desired: Desired, order: seq<string>): seq<PacketRequest> {
    if order == [] then []
    else RequestsOf(desired, DropLast(order)) + if Last(order) in desired then [desired[Last(order)]] else []
  }

  /** What became of one queue's worth of requests: evicted before the drain, handed over, or dropped by a failed replay. */
  datatype Epoch = Epoch(evicted: seq<PacketRequest>, handed: seq<PacketRequest>, dropped: seq<PacketRequest>)

  /**
   * One finished publish, subscribe or unsubscribe call: whether its intent was tracked, and whether
   * its request was queued, was sent, and was answered with success.
   */
  datatype Call = Call(request: PacketRequest, tracked: bool, queued: bool, sent: bool, ok: bool)

  datatype Recovery = Recovery(
    desired: Desired,
    queue: seq<PacketRequest>,
    evicted: seq<PacketRequest>,
    epochs: seq<Epoch>,
    calls: seq<Call>)

  const INITIAL: Recovery := Recovery(map[], [], [], [], [])

  function AfterCall(config: BrokerReconnectConfig, s: Recovery, call: Call): Recovery {
    var desired := if call.tracked then Track(s.desired, call.request) else s.desired;
    var bound := config.maxQueuedRequests;
    if call.queued then
      Recovery(desired, Pushed(bound, s.queue, call.request), s.evicted + Overflow(bound, s.queue), s.epochs,
               s.calls + [call])
    else
      Recovery(desired, s.queue, s.evicted, s.epochs, s.calls + [call])
  }

  datatype ReplayOutcome = ReplayOutcome(
    sent: seq<PacketRequest>, result: Result<seq<Event>, string>, after: Recovery)

  /** The desired subscriptions a replay sends, in the order it visits them. */
  function Wishes(config: BrokerReconnectConfig, s: Recovery, order: seq<string>): seq<PacketRequest> {
    if config.replaySubscriptions then RequestsOf(s.desired, order) else []
  }

  /** The queue is emptied when its first `m` requests were handed over and the others dropped. */
  function Drained(s: Recovery, m: nat): Recovery
    requires m <= |s.queue|
  {
    s.(queue := [], evicted := [], epochs := s.epochs + [Epoch(s.evicted, s.queue[..m], s.queue[m..])])
  }

  function QueueDrained(s: Recovery, net: nat -> Exchange, at: nat): ReplayOutcome {
    var (m, result) := Pump(net, at, s.queue);
    ReplayOutcome(s.queue[..m], result, Drained(s, m))
  }

  /** A replay that visits the desired subscriptions in `order` over exchanges `net(at)`, `net(at + 1)`, ... */
  function Replayed(config: BrokerReconnectConfig, s: Recovery, order: seq<string>, net: nat -> Exchange, at: nat)
    : ReplayOutcome
  {
    var wanted := Wishes(config, s, order);
    var (n, first) := Pump(net, at, wanted);
    if first.Err? then ReplayOutcome(wanted[..n], first, s)
    else
      var rest := QueueDrained(s, net, at + |wanted|);
      ReplayOutcome(wanted + rest.sent, Prepend(first.value, rest.result), rest.after)
  }

  // ----- calls -----

  /**
   * A command given to the running listener: it never reached its channel, or no answer came in time
   * (the listener may have served it all the same, and then `served` says how), or it was answered.
   */
  datatype ListenerReply =
    | NotTaken(error: string)
    | Unanswered(error: string, served: Option<Exchange>)
    | Answered(exchange: Exchange)
  {
    function Outcome(): Result<seq<Message>, string> {
      match this
      case NotTaken(error) => Err(error)
      case Unanswered(error, _) => Err(error)
      case Answered(exchange) => exchange.Outcome()
    }
  }

  /**
   * Outcomes of everything a call touches outside the driver's recovery state; `handshake` holds the
   * events read while connecting, if it came to that.
   */
  datatype CallEnv = CallEnv(
    running: bool,
    command: ListenerReply,
    handshake: seq<Event>,
    connected: Result<(), string>,
    taken: Result<(), string>,
    exchange: Exchange,
    slot: Result<(), string>,
    runningAfter: bool)

  predicate DirectPathFails(env: CallEnv) {
    !env.running && env.connected.Ok? && env.taken.Ok? && env.slot.Ok? && !env.exchange.Succeeds()
  }

  /** The call ends by queueing: its listener command failed, or its direct exchange did under a listener. */
  predicate EndsQueued(config: BrokerReconnectConfig, env: CallEnv) {
    config.queueRequestsWhileDisconnected &&
    ((env.running && env.command.Outcome().Err?) || (DirectPathFails(env) && env.runningAfter))
  }

  /** What the call answers: the events it read, nothing when queued, or its first failure. */
  function Reported(config: BrokerReconnectConfig, env: CallEnv): Result<seq<Event>, string> {
    if EndsQueued(config, env) then Ok([])
    else if env.running then
      (match env.command.Outcome() case Ok(messages) => Ok(EventsOf(messages)) case Err(error) => Err(error))
    else if env.connected.Err? then Err(env.connected.error)
    else if env.taken.Err? then Err(env.taken.error)
    else if env.slot.Err? then Err(env.slot.error)
    else
      match env.exchange.Outcome()
      case Ok(messages) => Ok(EventsOf(messages))
      case Err(error) => if env.runningAfter then Ok([]) else Err(error)
  }

  /** The exchange that took place for the call, on its own session or on the listener's. */
  function Performed(env: CallEnv): Option<Exchange> {
    if env.running then
      match env.command
      case NotTaken(_) => None
      case Unanswered(_, served) => served
      case Answered(exchange) => Some(exchange)
    else if env.connected.Ok? && env.taken.Ok? then
      Some(env.exchange)
    else
      None
  }

  predicate SentOut(env: CallEnv) {
    Performed(env).Some? && Performed(env).value.Sent?
  }

  /** The one read after sending brought a result for the request. */
  predicate Acknowledged(request: PacketRequest, env: CallEnv) {
    && SentOut(env)
    && Performed(env).value.reading.Arrived?
    && ResultMessage(request.commandId) in Performed(env).value.reading.messages
  }

  /** `accepted` says whether the caller's sink took the events the call read; only a subscribe has one. */
  function Finished(config: BrokerReconnectConfig, request: PacketRequest, tracked: bool, env: CallEnv, accepted: bool): Call {
    Call(request, tracked, EndsQueued(config, env), SentOut(env), Reported(config, env).Ok? && accepted)
  }

  class ClientSession {
    const net: nat -> Exchange
    var exchanges: nat
    var sent: seq<PacketRequest>

    constructor (net: nat -> Exchange)
      ensures this.net == net && exchanges == 0 && sent == []
    {
      this.net, exchanges, sent := net, 0, [];
    }

    method Send(request: PacketRequest) returns (r: Result<(), string>)
      modifies this
      ensures match net(old(exchanges))
              case SendFailed(error) => r == Err(error) && sent == old(sent) && exchanges == old(exchanges) + 1
              case Sent(_) => r == Ok(()) && sent == old(sent) + [request] && exchanges == old(exchanges)
    {
      match net(exchanges) {
        case SendFailed(error) =>
          exchanges := exchanges + 1;
          r := Err(error);
        case Sent(_) =>
          sent := sent + [request];
          r := Ok(());
      }
    }

    /** One read for the acknowledgement of what was just sent. */
    method Read() returns (r: Result<seq<Message>, string>)
      requires net(exchanges).Sent?
      modifies this`exchanges
      ensures exchanges == old(exchanges) + 1 && r == net(old(exchanges)).Outcome()
    {
      r := net(exchanges).Outcome();
      exchanges := exchanges + 1;
    }

    /** Sends a request and, if that worked, reads once. */
    method SendAndRead(request: PacketRequest) returns (r: Result<seq<Message>, string>)
      modifies this
      ensures exchanges == old(exchanges) + 1 && r == net(old(exchanges)).Outcome()
      ensures sent == old(sent) + if net(old(exchanges)).Sent? then [request] else []
    {
      var handed := Send(request);
      if handed.Err? {
        return Err(handed.error);
      }
      r := Read();
    }

    method HandAll(requests: seq<PacketRequest>) returns (r: Result<seq<Event>, string>)
      modifies this
      ensures r == Pump(net, old(exchanges), requests).1
      ensures sent == old(sent) + requests[..Pump(net, old(exchanges), requests).0]
      ensures exchanges == old(exchanges) + Attempts(net, old(exchanges), |requests|)
      ensures r.Ok? ==> exchanges == old(exchanges) + |requests|
    {
      var events := [];
      ghost var start := exchanges;
      HandedFirst(net, start, requests);
      for i := 0 to |requests|
        invariant exchanges == start + i && sent == old(sent) + requests[..i]
        invariant Handed(net, start, requests, i, events)
      {
        HandedNext(net, start, requests, i, events);
        var messages := SendAndRead(requests[i]);
        if messages.Err? {
          assert requests[..i + 1] == requests[..i] + [requests[i]];
          return Err(messages.error);
        }
        events := events + EventsOf(messages.value);
      }
      HandedAll(net, start, requests, events);
      r := Ok(events);
    }
  }

  /** After `i` successful exchanges that read `events` the rest of the hand-over decides. */
  predicate Handed(net: nat -> Exchange, start: nat, requests: seq<PacketRequest>, i: nat, events: seq<Event>) {
    && i <= |requests|
    && Attempts(net, start, |requests|) == i + Attempts(net, start + i, |requests| - i)
    && var (n, rest) := Pump(net, start + i, requests[i..]);
       Pump(net, start, requests) == (i + n, Prepend(events, rest))
  }

  lemma HandedFirst(net: nat -> Exchange, start: nat, requests: seq<PacketRequest>)
    ensures Handed(net, start, requests, 0, [])
  {
    assert requests[0..] == requests;
    PrependTwice([], [], Pump(net, start, requests).1);
  }

  lemma HandedNext(net: nat -> Exchange, start: nat, requests: seq<PacketRequest>, i: nat, events: seq<Event>)
    requires i < |requests| && Handed(net, start, requests, i, events)
    ensures match net(start + i).Outcome()
            case Err(error) =>
              && Pump(net, start, requests) == (i + if net(start + i).Sent? then 1 else 0, Err(error))
              && Attempts(net, start, |requests|) == i + 1
            case Ok(messages) => Handed(net, start, requests, i + 1, events + EventsOf(messages))
  {
    assert requests[i..][1..] == requests[i + 1..];
    if net(start + i).Outcome().Ok? {
      PrependTwice(events, EventsOf(net(start + i).Outcome().value), Pump(net, start + i + 1, requests[i + 1..]).1);
    }
  }

  lemma HandedAll(net: nat -> Exchange, start: nat, requests: seq<PacketRequest>, events: seq<Event>)
    requires Handed(net, start, requests, |requests|, events)
    ensures Pump(net, start, requests) == (|requests|, Ok(events)) && Attempts(net, start, |requests|) == |requests|
    ensures requests[..|requests|] == requests
  {
    assert requests[|requests|..] == [] && events + [] == events;
  }

  class MqttDriver {
    const reconnect: BrokerReconnectConfig
    var desired: Desired
    var queue: seq<PacketRequest>
    ghost var evicted: seq<PacketRequest>
    ghost var epochs: seq<Epoch>
    ghost var calls: seq<Call>

    constructor (reconnect: BrokerReconnectConfig)
      ensures this.reconnect == reconnect && State() == INITIAL
    {
      this.reconnect := reconnect;
      desired, queue, evicted, epochs, calls := map[], [], [], [], [];
    }

    ghost function State(): Recovery
      reads this
    {
      Recovery(desired, queue, evicted, epochs, calls)
    }

    method TrackSubscriptionIntent(request: PacketRequest)
      modifies this`desired
      ensures desired == Track(old(desired), request)
    {
      var key := TopicKey(request);
      if key.None? {
        return;
      }
      if request.packet.SubscribePacket? {
        desired := desired[key.value := request];
      } else {
        desired := desired - {key.value};
      }
    }

    method EnqueueRecoveryRequest(request: PacketRequest) returns (r: Result<(), string>)
      modifies this`queue, this`evicted
      ensures r.Ok? <==> reconnect.queueRequestsWhileDisconnected
      ensures r.Ok? ==> queue == Pushed(reconnect.maxQueuedRequests, old(queue), request)
      ensures r.Ok? ==> evicted == old(evicted) + Overflow(reconnect.maxQueuedRequests, old(queue))
      ensures r.Err? ==> queue == old(queue) && evicted == old(evicted)
    {
      if !reconnect.queueRequestsWhileDisconnected {
        return Err("MQTT recovery queue is disabled");
      }
      evicted := evicted + Overflow(reconnect.maxQueuedRequests, queue);
      if |queue| >= reconnect.maxQueuedRequests && queue != [] {
        queue := queue[1..];
      }
      queue := queue + [request];
      r := Ok(());
    }

    /** The part publish, subscribe and unsubscribe share once the intent is tracked. */
    method Submit(request: PacketRequest, env: CallEnv) returns (r: Result<seq<Event>, string>)
      modifies this`queue, this`evicted
      ensures EndsQueued(reconnect, env) ==>
                && queue == Pushed(reconnect.maxQueuedRequests, old(queue), request)
                && evicted == old(evicted) + Overflow(reconnect.maxQueuedRequests, old(queue))
      ensures !EndsQueued(reconnect, env) ==> queue == old(queue) && evicted == old(evicted)
      ensures r == Reported(reconnect, env)
    {
      if env.running {
        var answer := env.command.Outcome();
        if answer.Ok? {
          return Ok(EventsOf(answer.value));
        }
        var enqueued := EnqueueRecoveryRequest(request);
        return if enqueued.Ok? then Ok([]) else Err(answer.error);
      }
      if env.connected.Err? {
        return Err(env.connected.error);
      }
      if env.taken.Err? {
        return Err(env.taken.error);
      }
      if env.slot.Err? {
        return Err(env.slot.error);
      }
      var read := env.exchange.Outcome();
      if read.Ok? {
        return Ok(EventsOf(read.value));
      }
      if env.runningAfter {
        var _ := EnqueueRecoveryRequest(request);
        return Ok([]);
      }
      r := Err(read.error);
    }

    method Publish(request: PacketRequest, env: CallEnv) returns (r: Result<(), string>)
      modifies this
      ensures State() == AfterCall(reconnect, old(State()), Finished(reconnect, request, false, env, true))
      ensures r == var reported := Reported(reconnect, env); if reported.Ok? then Ok(()) else Err(reported.error)
    {
      var submitted := Submit(request, env);
      calls := calls + [Finished(reconnect, request, false, env, true)];
      r := if submitted.Ok? then Ok(()) else Err(submitted.error);
    }

    /** The intent is tracked before anything can fail; the events read go to the caller's sink until it refuses one. */
    method Subscribe(request: PacketRequest, env: CallEnv, sink: nat -> bool, delivered: seq<Event>)
      returns (r: Result<(), string>, after: seq<Event>)
      modifies this
      ensures State() == AfterCall(reconnect, old(State()), Finished(reconnect, request, true, env, r.Ok?))
      ensures var reported := Reported(reconnect, env);
              if reported.Err? then
                r == Err(reported.error) && after == delivered
              else
                && after == Forward(sink, delivered, reported.value).0
                && r == if Forward(sink, delivered, reported.value).1 then Ok(()) else Err(SINK_ERROR)
    {
      TrackSubscriptionIntent(request);
      var submitted := Submit(request, env);
      var accepted := false;
      after := delivered;
      if submitted.Err? {
        r := Err(submitted.error);
      } else {
        after, accepted := ForwardAll(sink, delivered, submitted.value);
        r := if accepted then Ok(()) else Err(SINK_ERROR);
      }
      calls := calls + [Finished(reconnect, request, true, env, accepted)];
    }

    /** The intent is tracked before anything can fail. */
    method Unsubscribe(request: PacketRequest, env: CallEnv) returns (r: Result<(), string>)
      modifies this
      ensures State() == AfterCall(reconnect, old(State()), Finished(reconnect, request, true, env, true))
      ensures r == var reported := Reported(reconnect, env); if reported.Ok? then Ok(()) else Err(reported.error)
    {
      TrackSubscriptionIntent(request);
      var submitted := Submit(request, env);
      calls := calls + [Finished(reconnect, request, true, env, true)];
      r := if submitted.Ok? then Ok(()) else Err(submitted.error);
    }

    /** The keys of the desired set in the order the map happens to yield them. */
    method DesiredOrder() returns (order: seq<string>)
      ensures Enumerates(order, desired)
    {
      order := [];
      var keys := desired.Keys;
      while keys != {}
        invariant forall key :: key in desired <==> key in order || key in keys
        invariant forall key :: key in order ==> key !in keys
        invariant forall i, j :: 0 <= i < j < |order| ==> order[i] != order[j]
        decreases keys
      {
        var key :| key in keys;
        order := order + [key];
        keys := keys - {key};
      }
    }

    /** Empties the queue, then hands its requests over: what a failure leaves unsent is gone. */
    method DrainQueue(session: ClientSession) returns (r: Result<seq<Event>, string>)
      modifies this, session
      ensures var outcome := QueueDrained(old(State()), session.net, old(session.exchanges));
              && r == outcome.result
              && session.sent == old(session.sent) + outcome.sent
              && State() == outcome.after
    {
      var queued := queue;
      ghost var m := Pump(session.net, session.exchanges, queued).0;
      queue, evicted, epochs := [], [], epochs + [Epoch(evicted, queued[..m], queued[m..])];
      r := session.HandAll(queued);
    }

    method ReplayRecoveryState(session: ClientSession) returns (r: Result<seq<Event>, string>, ghost order: seq<string>)
      modifies this, session
      ensures Enumerates(order, old(desired))
      ensures var outcome := Replayed(reconnect, old(State()), order, session.net, old(session.exchanges));
              && r == outcome.result
              && session.sent == old(session.sent) + outcome.sent
              && State() == outcome.after
    {
      var visit := DesiredOrder();
      order := visit;
      var wanted: seq<PacketRequest> := [];
      if reconnect.replaySubscriptions {
        wanted := RequestsOf(desired, visit);
      }
      var recovered := session.HandAll(wanted);
      if recovered.Err? {
        return recovered, order;
      }
      assert wanted[..|wanted|] == wanted;
      r := DrainQueue(session);
      r := Prepend(recovered.value, r);
    }
  }

  // ----- runs -----

  /** A finished call, or a replay over a fresh session. */
  datatype Step =
    | CallStep(request: PacketRequest, tracked: bool, env: CallEnv, accepted: bool)
    | ReplayStep(order: seq<string>, net: nat -> Exchange)

  function After(config: BrokerReconnectConfig, s: Recovery, step: Step): Recovery {
    match step
    case CallStep(request, tracked, env, accepted) => AfterCall(config, s, Finished(config, request, tracked, env, accepted))
    case ReplayStep(order, net) => Replayed(config, s, order, net, 0).after
  }

  function Run(config: BrokerReconnectConfig, steps: seq<Step>): Recovery {
    if steps == [] then INITIAL else After(config, Run(config, DropLast(steps)), Last(steps))
  }

  function QueuedRequests(calls: seq<Call>): seq<PacketRequest> {
    if calls == [] then []
    else QueuedRequests(DropLast(calls)) + if Last(calls).queued then [Last(calls).request] else []
  }

  /** Every request of every drained queue, in the order the requests were queued. */
  function Settled(epochs: seq<Epoch>): seq<PacketRequest> {
    if epochs == [] then []
    else Settled(DropLast(epochs)) + (Last(epochs).evicted + Last(epochs).handed + Last(epochs).dropped)
  }

  /**
   * Conservation: the requests ever queued are, in order, those of the drained epochs (evicted,
   * then handed to a session, then dropped), those evicted since, and those still in the queue;
   * and the queue holds the last min(n, max(1, bound)) of the n requests queued since the last drain.
   */
  predicate Conserved(bound: nat, s: Recovery) {
    && QueuedRequests(s.calls) == Settled(s.epochs) + s.evicted + s.queue
    && |s.queue| == Min(|s.evicted| + |s.queue|, Max(1, bound))
  }

  lemma PushConserves(bound: nat, evicted: seq<PacketRequest>, queue: seq<PacketRequest>, request: PacketRequest)
    requires |queue| == Min(|evicted| + |queue|, Max(1, bound))
    ensures evicted + Overflow(bound, queue) + Pushed(bound, queue, request) == evicted + queue + [request]
    ensures |Pushed(bound, queue, request)| == Min(|evicted| + |queue| + 1, Max(1, bound))
  {
    if |queue| >= bound && queue != [] {
      assert queue == [queue[0]] + queue[1..];
    }
  }

  lemma CallConserves(config: BrokerReconnectConfig, s: Recovery, call: Call)
    requires Conserved(config.maxQueuedRequests, s)
    ensures Conserved(config.maxQueuedRequests, AfterCall(config, s, call))
  {
    var after := AfterCall(config, s, call);
    assert DropLast(after.calls) == s.calls;
    if call.queued {
      PushConserves(config.maxQueuedRequests, s.evicted, s.queue, call.request);
      assert Settled(s.epochs) + after.evicted + after.queue == Settled(s.epochs) + (after.evicted + after.queue);
      assert Settled(s.epochs) + (s.evicted + s.queue + [call.request]) ==
             Settled(s.epochs) + s.evicted + s.queue + [call.request];
    }
  }

  lemma EpochSettles(epochs: seq<Epoch>, epoch: Epoch, queue: seq<PacketRequest>)
    requires queue == epoch.handed + epoch.dropped
    ensures Settled(epochs + [epoch]) == Settled(epochs) + epoch.evicted + queue
  {
    assert DropLast(epochs + [epoch]) == epochs;
    assert Settled(epochs) + epoch.evicted + queue ==
           Settled(epochs) + (epoch.evicted + epoch.handed + epoch.dropped);
  }

  lemma DrainConserves(bound: nat, s: Recovery, m: nat)
    requires Conserved(bound, s) && m <= |s.queue|
    ensures Conserved(bound, Drained(s, m))
  {
    var epoch := Epoch(s.evicted, s.queue[..m], s.queue[m..]);
    EpochSettles(s.epochs, epoch, s.queue);
    assert Settled(s.epochs + [epoch]) + [] + [] == Settled(s.epochs + [epoch]);
  }

  lemma ReplayConserves(config: BrokerReconnectConfig, s: Recovery, order: seq<string>, net: nat -> Exchange, at: nat)
    requires Conserved(config.maxQueuedRequests, s)
    ensures Conserved(config.maxQueuedRequests, Replayed(config, s, order, net, at).after)
  {
    var wanted := Wishes(config, s, order);
    var after := Replayed(config, s, order, net, at).after;
    if Pump(net, at, wanted).1.Ok? {
      var m := Pump(net, at + |wanted|, s.queue).0;
      assert after == Drained(s, m);
      DrainConserves(config.maxQueuedRequests, s, m);
    } else {
      assert after == s;
    }
  }

  /** Over every run of calls and replays, whatever fails: nothing queued is lost sight of or counted twice. */
  lemma {:induction false} RunConserves(config: BrokerReconnectConfig, steps: seq<Step>)
    ensures Conserved(config.maxQueuedRequests, Run(config, steps))
  {
    if steps != [] {
      RunConserves(config, DropLast(steps));
      var s := Run(config, DropLast(steps));
      match Last(steps) {
        case CallStep(request, tracked, env, accepted) => CallConserves(config, s, Finished(config, request, tracked, env, accepted));
        case ReplayStep(order, net) => ReplayConserves(config, s, order, net, 0);
      }
    }
  }

  /**
   * What one replay hands to the session: the desired set first, then a prefix of the queue in
   * FIFO order. A failure among the desired set leaves the queue alone; a later one drops the
   * rest of it; success hands over everything.
   */
  lemma ReplayHandsInOrder(config: BrokerReconnectConfig, s: Recovery, order: seq<string>, net: nat -> Exchange, at: nat)
    ensures var outcome := Replayed(config, s, order, net, at);
            var wanted := Wishes(config, s, order);
            && outcome.after.desired == s.desired
            && (outcome.after == s ==> outcome.sent <= wanted && outcome.result.Err?)
            && (outcome.after != s ==>
                  && |outcome.after.epochs| == |s.epochs| + 1
                  && outcome.after.queue == []
                  && outcome.sent == wanted + Last(outcome.after.epochs).handed
                  && s.queue == Last(outcome.after.epochs).handed + Last(outcome.after.epochs).dropped)
            && (outcome.result.Ok? ==> outcome.after != s && Last(outcome.after.epochs).dropped == [])
  {
    var outcome := Replayed(config, s, order, net, at);
    if outcome.after.epochs != s.epochs {
      assert s.queue == Last(outcome.after.epochs).handed + Last(outcome.after.epochs).dropped;
    }
  }

  lemma {:induction false} AllSucceedRest(net: nat -> Exchange, at: nat, n: nat)
    requires n > 0
    ensures AllSucceed(net, at, n) <==> Nth(net, at, 0).Succeeds() && AllSucceed(net, at + 1, n - 1)
  {
    var next := at + 1;
    if AllSucceed(net, at, n) {
      assert Nth(net, at, 0).Succeeds();
      forall i: nat | i < n - 1
        ensures Nth(net, next, i).Succeeds()
      {
        assert Nth(net, next, i) == Nth(net, at, i + 1);
      }
    }
    assert forall i: nat | 0 < i < n :: Nth(net, at, i) == Nth(net, next, i - 1);
  }

  lemma {:induction false} EventsReadRest(net: nat -> Exchange, at: nat, n: nat)
    requires n > 0
    ensures EventsRead(net, at, n) == Nth(net, at, 0).Decoded() + EventsRead(net, at + 1, n - 1)
  {
    var first := Nth(net, at, 0).Decoded();
    if n == 1 {
      assert [] + first == first + [];
    } else {
      EventsReadRest(net, at, n - 1);
      assert Nth(net, at, n - 1) == Nth(net, at + 1, n - 2);
    }
  }

  /** When every exchange succeeds every request is sent, and the events are those read, in order. */
  lemma {:induction false} PumpAll(net: nat -> Exchange, at: nat, requests: seq<PacketRequest>)
    requires AllSucceed(net, at, |requests|)
    ensures Pump(net, at, requests) == (|requests|, Ok(EventsRead(net, at, |requests|)))
    decreases |requests|
  {
    if requests != [] {
      AllSucceedRest(net, at, |requests|);
      EventsReadRest(net, at, |requests|);
      assert Nth(net, at, 0) == net(at);
      PumpAll(net, at + 1, requests[1..]);
    }
  }

  /** Otherwise the requests before the first failing exchange are sent, and its own if only its read failed. */
  lemma {:induction false} PumpStops(net: nat -> Exchange, at: nat, requests: seq<PacketRequest>, k: nat)
    requires k < |requests| && FirstFailure(net, at, k)
    ensures Pump(net, at, requests)
         == (if Nth(net, at, k).Sent? then k + 1 else k, Err(Nth(net, at, k).Outcome().error))
    decreases |requests|
  {
    if k > 0 {
      AllSucceedRest(net, at, k);
      assert Nth(net, at + 1, k - 1) == Nth(net, at, k) && Nth(net, at, 0) == net(at);
      PumpStops(net, at + 1, requests[1..], k - 1);
    } else {
      assert Nth(net, at, 0) == net(at);
    }
  }

  lemma {:induction false} FindFirstFailure(net: nat -> Exchange, at: nat, n: nat) returns (k: nat)
    requires !AllSucceed(net, at, n)
    ensures k < n && FirstFailure(net, at, k)
  {
    if AllSucceed(net, at, n - 1) {
      k := n - 1;
    } else {
      k := FindFirstFailure(net, at, n - 1);
    }
  }

  /** Handing over `n` requests leaves one unsent: a failure before the last one, or of the last one's send. */
  predicate LeavesUnsent(net: nat -> Exchange, at: nat, n: nat) {
    n > 0 && (!AllSucceed(net, at, n - 1) || Nth(net, at, n - 1).SendFailed?)
  }

  lemma PumpLeavesUnsent(net: nat -> Exchange, at: nat, requests: seq<PacketRequest>)
    ensures Pump(net, at, requests).0 < |requests| <==> LeavesUnsent(net, at, |requests|)
    ensures Pump(net, at, requests).1.Ok? <==> AllSucceed(net, at, |requests|)
  {
    if AllSucceed(net, at, |requests|) {
      PumpAll(net, at, requests);
      assert requests != [] ==> Nth(net, at, |requests| - 1).Succeeds();
    } else {
      var k := FindFirstFailure(net, at, |requests|);
      PumpStops(net, at, requests, k);
      if k < |requests| - 1 {
        assert !AllSucceed(net, at, |requests| - 1);
      }
    }
  }

  /**
   * What a replay loses, exactly: it drops a queued request if and only if every desired request went
   * through and then an exchange before that of the last queued request failed, or that one's send did.
   */
  lemma ReplayDropsExactly(config: BrokerReconnectConfig, s: Recovery, order: seq<string>, net: nat -> Exchange, at: nat)
    ensures var after := Replayed(config, s, order, net, at).after;
            var wanted := |Wishes(config, s, order)|;
            (|after.epochs| > |s.epochs| && Last(after.epochs).dropped != [])
            <==> AllSucceed(net, at, wanted) && LeavesUnsent(net, at + wanted, |s.queue|)
  {
    var wanted := Wishes(config, s, order);
    var after := Replayed(config, s, order, net, at).after;
    PumpLeavesUnsent(net, at, wanted);
    if Pump(net, at, wanted).1.Ok? {
      var m := Pump(net, at + |wanted|, s.queue).0;
      assert after == Drained(s, m);
      PumpLeavesUnsent(net, at + |wanted|, s.queue);
    } else {
      assert after == s;
    }
  }

  /** The exchanges a hand-over makes: all of them, or up to the first that fails. */
  function Attempts(net: nat -> Exchange, at: nat, n: nat): (k: nat)
    ensures k <= n
    decreases n
  {
    if n == 0 then 0
    else if !net(at).Succeeds() then 1
    else 1 + Attempts(net, at + 1, n - 1)
  }

  lemma {:induction false} AttemptsExactly(net: nat -> Exchange, at: nat, n: nat)
    ensures AllSucceed(net, at, n) ==> Attempts(net, at, n) == n
    ensures forall k: nat | k < n && FirstFailure(net, at, k) :: Attempts(net, at, n) == k + 1
    decreases n
  {
    if n > 0 {
      AttemptsExactly(net, at + 1, n - 1);
      AllSucceedRest(net, at, n);
      assert Nth(net, at, 0) == net(at);
      forall k: nat | k < n && FirstFailure(net, at, k)
        ensures Attempts(net, at, n) == k + 1
      {
        if k > 0 {
          assert Nth(net, at, 0).Succeeds();
          AllSucceedRest(net, at, k);
          assert Nth(net, at + 1, k - 1) == Nth(net, at, k);
          assert FirstFailure(net, at + 1, k - 1);
        }
      }
    }
  }

  lemma AttemptsAll(net: nat -> Exchange, at: nat, n: nat)
    requires AllSucceed(net, at, n)
    ensures Attempts(net, at, n) == n
  {
    AttemptsExactly(net, at, n);
  }

  /** The requests a replay tries to hand over, one exchange each. */
  function ReplaySize(config: BrokerReconnectConfig, s: Recovery, order: seq<string>): nat {
    |Wishes(config, s, order)| + |s.queue|
  }

  /** The events a replay reads, whether or not it then fails. */
  function ReplayReads(config: BrokerReconnectConfig, s: Recovery, order: seq<string>, net: nat -> Exchange, at: nat)
    : seq<Event>
  {
    EventsRead(net, at, Attempts(net, at, ReplaySize(config, s, order)))
  }

  lemma {:induction false} AllSucceedSplit(net: nat -> Exchange, at: nat, n: nat, m: nat)
    ensures AllSucceed(net, at, n + m) <==> AllSucceed(net, at, n) && AllSucceed(net, at + n, m)
  {
    var next := at + n;
    assert forall i: nat | n <= i < n + m :: Nth(net, at, i) == Nth(net, next, i - n);
    if AllSucceed(net, at, n + m) {
      forall i: nat | i < m
        ensures Nth(net, next, i).Succeeds()
      {
        assert Nth(net, next, i) == Nth(net, at, n + i);
      }
    }
  }

  lemma {:induction false} EventsReadSplit(net: nat -> Exchange, at: nat, n: nat, m: nat)
    ensures EventsRead(net, at, n + m) == EventsRead(net, at, n) + EventsRead(net, at + n, m)
  {
    if m == 0 {
      assert EventsRead(net, at, n) + [] == EventsRead(net, at, n);
    } else {
      EventsReadSplit(net, at, n, m - 1);
      assert Nth(net, at, n + m - 1) == Nth(net, at + n, m - 1);
    }
  }

  lemma PumpTwice(net: nat -> Exchange, at: nat, first: seq<PacketRequest>, second: seq<PacketRequest>)
    requires AllSucceed(net, at, |first| + |second|)
    ensures Pump(net, at, first).1 == Ok(EventsRead(net, at, |first|))
    ensures Pump(net, at + |first|, second).1 == Ok(EventsRead(net, at + |first|, |second|))
  {
    AllSucceedSplit(net, at, |first|, |second|);
    PumpAll(net, at, first);
    PumpAll(net, at + |first|, second);
  }

  lemma ReadTwice(net: nat -> Exchange, at: nat, n: nat, m: nat)
    requires AllSucceed(net, at, n + m)
    ensures EventsRead(net, at, n) + EventsRead(net, at + n, m) == EventsRead(net, at, Attempts(net, at, n + m))
  {
    AttemptsAll(net, at, n + m);
    EventsReadSplit(net, at, n, m);
  }

  /** The answer of two hand-overs, the second made only when the first succeeded. */
  function Chained(net: nat -> Exchange, at: nat, first: seq<PacketRequest>, second: seq<PacketRequest>)
    : Result<seq<Event>, string>
  {
    var r := Pump(net, at, first).1;
    if r.Err? then r else Prepend(r.value, Pump(net, at + |first|, second).1)
  }

  lemma ChainedSum(net: nat -> Exchange, at: nat, first: seq<PacketRequest>, second: seq<PacketRequest>,
                   before: seq<Event>, after: seq<Event>)
    requires Pump(net, at, first).1 == Ok(before) && Pump(net, at + |first|, second).1 == Ok(after)
    ensures Chained(net, at, first, second) == Ok(before + after)
  {
  }

  lemma ChainedAll(net: nat -> Exchange, at: nat, first: seq<PacketRequest>, second: seq<PacketRequest>)
    requires AllSucceed(net, at, |first| + |second|)
    ensures Chained(net, at, first, second)
         == Ok(EventsRead(net, at, Attempts(net, at, |first| + |second|)))
  {
    var before, after := EventsRead(net, at, |first|), EventsRead(net, at + |first|, |second|);
    assert Chained(net, at, first, second) == Ok(before + after) by {
      PumpTwice(net, at, first, second);
      ChainedSum(net, at, first, second, before, after);
    }
    ReadTwice(net, at, |first|, |second|);
  }

  lemma ChainedFails(net: nat -> Exchange, at: nat, first: seq<PacketRequest>, second: seq<PacketRequest>)
    requires !AllSucceed(net, at, |first| + |second|)
    ensures Chained(net, at, first, second).Err?
  {
    AllSucceedSplit(net, at, |first|, |second|);
    PumpLeavesUnsent(net, at, first);
    PumpLeavesUnsent(net, at + |first|, second);
  }

  lemma ReplayIsChained(config: BrokerReconnectConfig, s: Recovery, order: seq<string>, net: nat -> Exchange, at: nat)
    ensures Replayed(config, s, order, net, at).result == Chained(net, at, Wishes(config, s, order), s.queue)
  {
  }

  /**
   * What a replay reads and answers, exactly: all its events when every exchange succeeds; otherwise
   * its error, and what was read up to the first failing exchange is in no answer.
   */
  lemma ReplayAnswers(config: BrokerReconnectConfig, s: Recovery, order: seq<string>, net: nat -> Exchange, at: nat)
    ensures var answer := Replayed(config, s, order, net, at).result;
            && (answer.Ok? <==> AllSucceed(net, at, ReplaySize(config, s, order)))
            && (answer.Ok? ==> answer.value == ReplayReads(config, s, order, net, at))
  {
    ReplayIsChained(config, s, order, net, at);
    if AllSucceed(net, at, ReplaySize(config, s, order)) {
      ChainedAll(net, at, Wishes(config, s, order), s.queue);
    } else {
      ChainedFails(net, at, Wishes(config, s, order), s.queue);
    }
  }

  /** A call that gives its command to a listener that is gone: the request ends in the queue. */
  const LISTENER_GONE: CallEnv :=
    CallEnv(true, NotTaken("failed to send MQTT command to listener"), [], Ok(()), Ok(()), Sent(TimedOut), Ok(()), true)

  /**
   * A run that loses requests: two publishes are queued and reported as successes, the reconnected
   * session breaks on the first send, and the replay after that has nothing left to hand over.
   */
  lemma FailedReplayLosesQueue(config: BrokerReconnectConfig, first: PacketRequest, second: PacketRequest,
                               broken: nat -> Exchange, working: nat -> Exchange)
    requires config.queueRequestsWhileDisconnected && config.maxQueuedRequests >= 2
    requires broken(0).SendFailed?
    ensures var queued := [CallStep(first, false, LISTENER_GONE, true), CallStep(second, false, LISTENER_GONE, true)];
            var s := Run(config, queued + [ReplayStep([], broken)]);
            && s.calls == [Call(first, false, true, false, true), Call(second, false, true, false, true)]
            && s.queue == [] && s.epochs == [Epoch([], [], [first, second])]
            && Replayed(config, s, [], working, 0).sent == []
  {
    var a, b := CallStep(first, false, LISTENER_GONE, true), CallStep(second, false, LISTENER_GONE, true);
    RunTwo(config, a, b);
    assert DropLast([a, b] + [ReplayStep([], broken)]) == [a, b];
    var full := Run(config, [a, b]);
    assert full.queue == [first, second] && full.evicted == [] && full.desired == map[];
    assert RequestsOf(full.desired, []) == [];
    assert Pump(broken, 0, full.queue).0 == 0;
  }

  // ----- what success means -----

  /** The send failed, or the read after it; a timeout is no failure. */
  function FailureOf(exchange: Exchange): Option<string> {
    match exchange
    case SendFailed(error) => Some(error)
    case Sent(ReadFailed(_, error)) => Some(error)
    case Sent(_) => None
  }

  /** The first failure of a call: of its listener command, or in turn of connecting, taking and keeping a session and of its exchange. */
  function FirstFailureOf(env: CallEnv): Option<string> {
    if env.running then
      match env.command
      case NotTaken(error) => Some(error)
      case Unanswered(error, _) => Some(error)
      case Answered(exchange) => FailureOf(exchange)
    else if env.connected.Err? then Some(env.connected.error)
    else if env.taken.Err? then Some(env.taken.error)
    else if env.slot.Err? then Some(env.slot.error)
    else FailureOf(env.exchange)
  }

  /** The failure is one a request is queued for: of a listener command, or of an exchange under a new listener. */
  predicate Recoverable(env: CallEnv) {
    env.running || (env.connected.Ok? && env.taken.Ok? && env.slot.Ok? && env.runningAfter)
  }

  /**
   * How a call ends, exactly: without a failure it answers the events it read; a recoverable failure
   * queues its request, if the driver queues, and is then no error; otherwise the first failure is the
   * answer, but for an exchange that failed under a new listener, which is never one.
   */
  lemma CallEndsExactly(config: BrokerReconnectConfig, env: CallEnv)
    ensures var failure, queueing := FirstFailureOf(env), config.queueRequestsWhileDisconnected;
            && (EndsQueued(config, env) <==> failure.Some? && Recoverable(env) && queueing)
            && Reported(config, env)
               == if failure.Some? then
                    if Recoverable(env) && (queueing || !env.running) then Ok([]) else Err(failure.value)
                  else
                    Ok(if env.running then env.command.exchange.Decoded() else env.exchange.Decoded())
    ensures SentOut(env) <==>
              if !env.running then env.connected.Ok? && env.taken.Ok? && env.exchange.Sent?
              else match env.command
                case NotTaken(_) => false
                case Unanswered(_, served) => served.Some? && served.value.Sent?
                case Answered(exchange) => exchange.Sent?
  {
  }

  /** The read neither failed nor brought a result for the request. */
  predicate Quiet(request: PacketRequest, reading: Reading) {
    match reading
    case TimedOut => true
    case Arrived(messages) => forall m <- messages :: m.EventMessage? || m.commandId != request.commandId
    case ReadFailed(_, _) => false
  }

  /** The call got as far as reading for its acknowledgement, and its answer was that read's. */
  predicate EndsReading(env: CallEnv) {
    if env.running then env.command.Answered? && env.command.exchange.Sent?
    else env.connected.Ok? && env.taken.Ok? && env.slot.Ok? && env.exchange.Sent?
  }

  function ReadingOf(env: CallEnv): Reading
    requires EndsReading(env)
  {
    if env.running then env.command.exchange.reading else env.exchange.reading
  }

  function WithReading(env: CallEnv, reading: Reading): CallEnv {
    if env.running then env.(command := Answered(Sent(reading))) else env.(exchange := Sent(reading))
  }

  /** The session broke under a direct call and a listener started meanwhile, with queueing off. */
  predicate Overtaken(config: BrokerReconnectConfig, env: CallEnv) {
    !config.queueRequestsWhileDisconnected && DirectPathFails(env) && env.runningAfter
  }

  /**
   * Success without delivery, exactly: a call reports success though its request was neither sent nor
   * queued if and only if it was overtaken by a listener and its send had failed.
   */
  lemma SilentLoss(config: BrokerReconnectConfig, env: CallEnv)
    ensures Reported(config, env).Ok? && !SentOut(env) && !EndsQueued(config, env)
            <==> Overtaken(config, env) && env.exchange.SendFailed?
  {
  }

  /**
   * Success without an acknowledgement, exactly: besides the calls that queue and those that were
   * overtaken, the calls whose one read was quiet.
   */
  lemma UnacknowledgedSuccess(config: BrokerReconnectConfig, request: PacketRequest, env: CallEnv)
    ensures Reported(config, env).Ok? && !EndsQueued(config, env) && !Acknowledged(request, env)
            <==> Overtaken(config, env) || (EndsReading(env) && Quiet(request, ReadingOf(env)))
  {
  }

  /** So success tells the caller nothing: whatever arrives instead of a timeout, the call ends the same way. */
  lemma SuccessBlindToArrival(config: BrokerReconnectConfig, request: PacketRequest, tracked: bool, env: CallEnv,
                              messages: seq<Message>)
    requires EndsReading(env)
    ensures Finished(config, request, tracked, WithReading(env, TimedOut), true)
         == Finished(config, request, tracked, WithReading(env, Arrived(messages)), true)
    ensures Finished(config, request, tracked, WithReading(env, TimedOut), true).ok
  {
  }

  /**
   * Sent and queued, exactly: a replay repeats a request the broker may have, when the listener served
   * its command too late or failed to read after sending it, or a direct call failed to read under a
   * listener.
   */
  lemma QueuedThoughSent(config: BrokerReconnectConfig, env: CallEnv)
    ensures EndsQueued(config, env) && SentOut(env)
            <==> && config.queueRequestsWhileDisconnected
                 && if env.running then
                      match env.command
                      case NotTaken(_) => false
                      case Unanswered(_, served) => served.Some? && served.value.Sent?
                      case Answered(exchange) => exchange.Sent? && exchange.reading.ReadFailed?
                    else
                      DirectPathFails(env) && env.runningAfter && env.exchange.Sent?
  {
  }

  /** The events a call without a listener reads itself, while connecting and for its acknowledgement. */
  function DirectlyRead(env: CallEnv): seq<Event>
    requires !env.running
  {
    env.handshake + if env.connected.Ok? && env.taken.Ok? then env.exchange.Decoded() else []
  }

  /**
   * The fate of those events, exactly: none is lost if and only if there was none, or none was read
   * while connecting and the exchange went through. A handshake's events are lost even then, and when
   * the exchange fails all are; what is reported goes to a subscribe's sink and nowhere else.
   */
  lemma DirectReadsFate(config: BrokerReconnectConfig, env: CallEnv)
    requires !env.running
    ensures var offered := Reported(config, env).GetOr([]);
            && (offered == DirectlyRead(env)
                <==> DirectlyRead(env) == [] || (env.handshake == [] && EndsReading(env) && env.exchange.Succeeds()))
            && (DirectlyRead(env) != [] && EndsReading(env) && env.exchange.Succeeds() ==>
                  DirectlyRead(env) == env.handshake + offered)
            && (!(EndsReading(env) && env.exchange.Succeeds()) ==> offered == [])
  {
    var offered, read := Reported(config, env).GetOr([]), env.exchange.Decoded();
    assert env.handshake == [] ==> env.handshake + read == read;
    if offered == DirectlyRead(env) && EndsReading(env) && env.exchange.Succeeds() {
      assert |env.handshake + read| == |env.handshake| + |read|;
    }
  }

  /** The request is in the queue, or was evicted, handed over or dropped. */
  predicate Accounted(s: Recovery, request: PacketRequest) {
    || request in s.queue
    || request in s.evicted
    || exists e <- s.epochs :: request in e.evicted || request in e.handed || request in e.dropped
  }

  lemma {:induction false} SettledAccounted(epochs: seq<Epoch>, request: PacketRequest)
    requires request in Settled(epochs)
    ensures exists e <- epochs :: request in e.evicted || request in e.handed || request in e.dropped
  {
    if request !in Last(epochs).evicted + Last(epochs).handed + Last(epochs).dropped {
      SettledAccounted(DropLast(epochs), request);
    } else {
      assert Last(epochs) in epochs;
    }
  }

  lemma {:induction false} QueuedIsRequested(calls: seq<Call>, i: nat)
    requires i < |calls| && calls[i].queued
    ensures calls[i].request in QueuedRequests(calls)
  {
    if i < |calls| - 1 {
      QueuedIsRequested(DropLast(calls), i);
    }
  }

  /** A call that reports success sent its request, or queued it, or was overtaken with a failed send. */
  lemma {:induction false} CallsTruthful(config: BrokerReconnectConfig, steps: seq<Step>, i: nat)
    requires config.queueRequestsWhileDisconnected
    requires i < |Run(config, steps).calls| && Run(config, steps).calls[i].ok
    ensures Run(config, steps).calls[i].sent || Run(config, steps).calls[i].queued
  {
    var before := Run(config, DropLast(steps));
    match Last(steps) {
      case ReplayStep(order, net) =>
        ReplayKeepsIntents(config, before, order, net, 0);
        CallsTruthful(config, DropLast(steps), i);
      case CallStep(request, tracked, env, accepted) =>
        SilentLoss(config, env);
        if i < |before.calls| {
          CallsTruthful(config, DropLast(steps), i);
        }
    }
  }

  /**
   * No success is lost sight of: with queueing on, over every run, the request of each call that
   * reported success was sent by the call itself or is still queued, evicted, handed to a session or
   * dropped by a failed replay.
   */
  lemma SuccessAccounted(config: BrokerReconnectConfig, steps: seq<Step>, i: nat)
    requires config.queueRequestsWhileDisconnected
    requires i < |Run(config, steps).calls| && Run(config, steps).calls[i].ok
    ensures var s := Run(config, steps); s.calls[i].sent || Accounted(s, s.calls[i].request)
  {
    var s := Run(config, steps);
    CallsTruthful(config, steps, i);
    if s.calls[i].queued {
      var request := s.calls[i].request;
      RunConserves(config, steps);
      QueuedIsRequested(s.calls, i);
      if request in Settled(s.epochs) {
        SettledAccounted(s.epochs, request);
      }
    }
  }

  // ----- convergence -----

  /** A broker's subscriptions after one more packet. */
  function Serve(filters: set<string>, request: PacketRequest): set<string> {
    match request.packet
    case PublishPacket(_, _, _, _, _, _, _, _) => filters
    case SubscribePacket(_, _, _, _) => filters + Named(request)
    case UnsubscribePacket(_, _, _, _) => filters - Named(request)
  }

  function Named(request: PacketRequest): set<string> {
    set filter | filter in Filters(request.packet)
  }

  function ServeAll(filters: set<string>, requests: seq<PacketRequest>): set<string> {
    if requests == [] then filters else Serve(ServeAll(filters, DropLast(requests)), Last(requests))
  }

  /** The last word of `requests` on a filter: subscribed, unsubscribed, or nothing said. */
  function Verdict(requests: seq<PacketRequest>, filter: string): Option<bool> {
    if requests == [] then None
    else if filter in Filters(Last(requests).packet) then Some(Last(requests).packet.SubscribePacket?)
    else Verdict(DropLast(requests), filter)
  }

  lemma {:induction false} ServeAllByVerdict(filters: set<string>, requests: seq<PacketRequest>, filter: string)
    ensures filter in ServeAll(filters, requests) <==> Verdict(requests, filter).GetOr(filter in filters)
  {
    if requests != [] {
      ServeAllByVerdict(filters, DropLast(requests), filter);
    }
  }

  lemma {:induction false} VerdictAppend(left: seq<PacketRequest>, right: seq<PacketRequest>, filter: string)
    ensures Verdict(left + right, filter) == OrElse(Verdict(right, filter), Verdict(left, filter))
  {
    if right == [] {
      assert left + right == left;
    } else {
      assert DropLast(left + right) == left + DropLast(right);
      VerdictAppend(left, DropLast(right), filter);
    }
  }

  /** Every tracked request is a subscribe packet under its own first filter. */
  predicate DesiredSound(desired: Desired) {
    forall key :: key in desired ==> desired[key].packet.SubscribePacket? && TopicKey(desired[key]) == Some(key)
  }

  predicate DesiredSingle(desired: Desired) {
    forall key :: key in desired ==> SingleFilter(desired[key])
  }

  /** Replaying the desired set alone subscribes exactly the filters its requests name. */
  lemma {:induction false} DesiredVerdict(desired: Desired, order: seq<string>, filter: string)
    requires DesiredSound(desired)
    ensures Verdict(RequestsOf(desired, order), filter) ==
            if exists key :: key in order && key in desired && filter in Filters(desired[key].packet) then Some(true)
            else None
  {
    if order != [] {
      var key := Last(order);
      DesiredVerdict(desired, DropLast(order), filter);
      var before := RequestsOf(desired, DropLast(order));
      assert forall k :: k in order <==> k in DropLast(order) || k == key by {
        assert order == DropLast(order) + [key];
      }
      if key in desired {
        assert DropLast(before + [desired[key]]) == before;
      } else {
        assert before + [] == before;
      }
    }
  }

  /** The broker's filters after a successful replay on a session that starts without subscriptions. */
  function BrokerAfterReplay(config: BrokerReconnectConfig, s: Recovery, order: seq<string>): set<string> {
    ServeAll({}, Wishes(config, s, order) + s.queue)
  }

  /** The queue's last word on every filter it names agrees with the desired set. */
  ghost predicate QueueAgrees(s: Recovery) {
    forall filter :: Verdict(s.queue, filter).Some? ==> (Verdict(s.queue, filter).value <==> filter in s.desired)
  }

  /** Every filter some desired request names. */
  function Wanted(s: Recovery): set<string> {
    set key, filter | key in s.desired && filter in Filters(s.desired[key].packet) :: filter
  }

  /** Whatever the desired requests name, and the queue does not, is itself desired. */
  ghost predicate NamesOnlyDesired(s: Recovery) {
    forall filter :: Verdict(s.queue, filter).None? && filter in Wanted(s) ==> filter in s.desired
  }

  /** One filter after a replay: the queue's last word, else whether a desired request names it. */
  lemma BrokerFilter(config: BrokerReconnectConfig, s: Recovery, order: seq<string>, filter: string)
    requires config.replaySubscriptions && Enumerates(order, s.desired) && DesiredSound(s.desired)
    ensures filter in BrokerAfterReplay(config, s, order) <==>
            Verdict(s.queue, filter).GetOr(filter in s.desired || filter in Wanted(s))
  {
    var wanted := RequestsOf(s.desired, order);
    ServeAllByVerdict({}, wanted + s.queue, filter);
    VerdictAppend(wanted, s.queue, filter);
    DesiredVerdict(s.desired, order, filter);
    if filter in s.desired {
      assert Filters(s.desired[filter].packet)[0] == filter;
    }
  }

  lemma FiltersAgreeIff(queue: seq<PacketRequest>, desired: set<string>, named: set<string>, broker: set<string>)
    requires forall filter :: filter in broker <==> Verdict(queue, filter).GetOr(filter in desired || filter in named)
    ensures broker == desired <==>
            && (forall filter :: Verdict(queue, filter).Some? ==> (Verdict(queue, filter).value <==> filter in desired))
            && (forall filter :: Verdict(queue, filter).None? && filter in named ==> filter in desired)
  {
    if broker == desired {
      assert forall filter :: filter in broker <==> filter in desired;
    }
  }

  /**
   * Convergence, exactly: with replay on, the broker ends with the desired filters if and only if
   * the queue's last word on each filter it names agrees with the desired set and the desired
   * requests name nothing else, whatever the order in which the map yields them.
   */
  lemma ReplayConvergesIff(config: BrokerReconnectConfig, s: Recovery, order: seq<string>)
    requires config.replaySubscriptions && Enumerates(order, s.desired) && DesiredSound(s.desired)
    ensures BrokerAfterReplay(config, s, order) == s.desired.Keys <==> QueueAgrees(s) && NamesOnlyDesired(s)
  {
    var broker, named, desired := BrokerAfterReplay(config, s, order), Wanted(s), s.desired.Keys;
    forall filter
      ensures filter in broker <==> Verdict(s.queue, filter).GetOr(filter in desired || filter in named)
    {
      BrokerFilter(config, s, order, filter);
    }
    FiltersAgreeIff(s.queue, desired, named, broker);
  }

  /** Requests of one filter each, as the program builds them, name nothing but their keys. */
  lemma SingleNamesOnlyDesired(s: Recovery)
    requires DesiredSound(s.desired) && DesiredSingle(s.desired)
    ensures NamesOnlyDesired(s)
  {
    forall filter | filter in Wanted(s)
      ensures filter in s.desired
    {
      var key :| key in s.desired && filter in Filters(s.desired[key].packet);
      assert Filters(s.desired[key].packet) == [key];
    }
  }

  // ----- convergence from the history of calls -----

  function Requests(calls: seq<Call>): seq<PacketRequest> {
    if calls == [] then []
    else Requests(DropLast(calls)) + [Last(calls).request]
  }

  /** Subscribe and unsubscribe calls carry such packets, publish calls carry publish packets, each names one filter. */
  predicate WellTyped(calls: seq<Call>) {
    forall i :: 0 <= i < |calls| ==>
      (calls[i].tracked <==> !calls[i].request.packet.PublishPacket?) && SingleFilter(calls[i].request)
  }

  /** The desired set is what the calls said last, filter by filter. */
  ghost predicate DesiredFollows(s: Recovery) {
    && DesiredSound(s.desired) && DesiredSingle(s.desired)
    && forall filter :: Verdict(Requests(s.calls), filter) == Some(true) <==> filter in s.desired
  }

  lemma ReplayKeepsIntents(config: BrokerReconnectConfig, s: Recovery, order: seq<string>, net: nat -> Exchange, at: nat)
    ensures Replayed(config, s, order, net, at).after.desired == s.desired
    ensures Replayed(config, s, order, net, at).after.calls == s.calls
  {
  }

  lemma CallTracks(config: BrokerReconnectConfig, s: Recovery, call: Call)
    requires DesiredFollows(s) && WellTyped(s.calls + [call])
    ensures DesiredFollows(AfterCall(config, s, call))
  {
    WellTypedBefore(s.calls + [call]);
    TrackFollows(s, call, AfterCall(config, s, call));
  }

  lemma {:induction false} RunTracksCalls(config: BrokerReconnectConfig, steps: seq<Step>)
    requires WellTyped(Run(config, steps).calls)
    ensures DesiredFollows(Run(config, steps))
  {
    if steps != [] {
      var before := Run(config, DropLast(steps));
      match Last(steps) {
        case ReplayStep(order, net) =>
          ReplayKeepsIntents(config, before, order, net, 0);
          RunTracksCalls(config, DropLast(steps));
        case CallStep(request, tracked, env, accepted) =>
          var call := Finished(config, request, tracked, env, accepted);
          WellTypedBefore(before.calls + [call]);
          assert DropLast(before.calls + [call]) == before.calls;
          RunTracksCalls(config, DropLast(steps));
          CallTracks(config, before, call);
      }
    }
  }

  /** The packet names the filter first. */
  predicate NamesFirst(packet: WirePacket, filter: string) {
    match packet
    case SubscribePacket(_, _, entries, _) => entries != [] && entries[0].filter == filter
    case UnsubscribePacket(_, _, filters, _) => filters != [] && filters[0] == filter
    case PublishPacket(_, _, _, _, _, _, _, _) => false
  }

  /** The `i`-th call is the last tracked one that names the filter first. */
  predicate LastTracked(calls: seq<Call>, filter: string, i: nat) {
    && i < |calls| && calls[i].tracked && NamesFirst(calls[i].request.packet, filter)
    && forall j | i < j < |calls| && calls[j].tracked :: !NamesFirst(calls[j].request.packet, filter)
  }

  /** What is desired under a filter is the last tracked request that names it, unless that unsubscribed. */
  ghost predicate DesiredLatest(s: Recovery, filter: string) {
    && (forall i: nat :: LastTracked(s.calls, filter, i) ==>
          Find(s.desired, filter)
          == if s.calls[i].request.packet.SubscribePacket? then Some(s.calls[i].request) else None)
    && (Find(s.desired, filter).Some? ==> exists i: nat :: LastTracked(s.calls, filter, i))
  }

  lemma CallLatest(config: BrokerReconnectConfig, s: Recovery, call: Call, filter: string)
    requires DesiredLatest(s, filter)
    ensures DesiredLatest(AfterCall(config, s, call), filter)
  {
    var after := AfterCall(config, s, call);
    var n := |s.calls|;
    assert call.tracked && NamesFirst(call.request.packet, filter) <==> LastTracked(after.calls, filter, n);
    forall i: nat | i < n
      ensures LastTracked(after.calls, filter, i)
              <==> LastTracked(s.calls, filter, i) && !(call.tracked && NamesFirst(call.request.packet, filter))
    {
      assert forall j: nat | j < n :: after.calls[j] == s.calls[j];
    }
  }

  /**
   * The desired set, from the calls alone, over every run: under each filter the request of the last
   * tracked call that names it, or nothing if that was an unsubscribe or there was none.
   */
  lemma {:induction false} DesiredIsLatest(config: BrokerReconnectConfig, steps: seq<Step>, filter: string)
    ensures DesiredLatest(Run(config, steps), filter)
  {
    if steps != [] {
      var before := Run(config, DropLast(steps));
      DesiredIsLatest(config, DropLast(steps), filter);
      match Last(steps) {
        case ReplayStep(order, net) =>
          ReplayKeepsIntents(config, before, order, net, 0);
        case CallStep(request, tracked, env, accepted) =>
          CallLatest(config, before, Finished(config, request, tracked, env, accepted), filter);
      }
    }
  }

  lemma {:induction false} RequestsInOrder(desired: Desired, order: seq<string>)
    requires forall key <- order :: key in desired
    ensures |RequestsOf(desired, order)| == |order|
    ensures forall k: nat | k < |order| :: RequestsOf(desired, order)[k] == desired[order[k]]
  {
    if order != [] {
      assert forall key <- DropLast(order) :: key in order;
      assert Last(order) in order;
      RequestsInOrder(desired, DropLast(order));
    }
  }

  /** This request is that of the last tracked call that names the filter, and subscribes it. */
  ghost predicate LatestSubscribe(calls: seq<Call>, filter: string, request: PacketRequest) {
    exists i: nat :: LastTracked(calls, filter, i) && calls[i].request == request && request.packet.SubscribePacket?
  }

  lemma DesiredIsSubscribe(config: BrokerReconnectConfig, steps: seq<Step>, filter: string)
    ensures var s := Run(config, steps);
            && (filter in s.desired ==> LatestSubscribe(s.calls, filter, s.desired[filter]))
            && (forall request :: LatestSubscribe(s.calls, filter, request) ==> Find(s.desired, filter) == Some(request))
  {
    var s := Run(config, steps);
    DesiredIsLatest(config, steps, filter);
    if filter in s.desired {
      assert Find(s.desired, filter).Some?;
      var i: nat :| LastTracked(s.calls, filter, i);
      assert s.calls[i].request == s.desired[filter];
    }
  }

  /**
   * What a successful replay sends, from the calls alone, after any run: for each filter whose last
   * tracked call subscribed it that call's request, once, and then the queue.
   */
  lemma ReplaySendsLatest(config: BrokerReconnectConfig, steps: seq<Step>, order: seq<string>, net: nat -> Exchange)
    requires config.replaySubscriptions && Enumerates(order, Run(config, steps).desired)
    requires Replayed(config, Run(config, steps), order, net, 0).result.Ok?
    ensures var s := Run(config, steps);
            var sent := Replayed(config, s, order, net, 0).sent;
            && |sent| == |order| + |s.queue| && sent[|order|..] == s.queue
            && (forall k: nat | k < |order| :: LatestSubscribe(s.calls, order[k], sent[k]))
            && (forall filter, request :: LatestSubscribe(s.calls, filter, request) ==> filter in order)
  {
    var s := Run(config, steps);
    SuccessSendsAll(config, s, order, net, 0);
    RequestsInOrder(s.desired, order);
    forall filter, request | LatestSubscribe(s.calls, filter, request)
      ensures filter in order
    {
      DesiredIsSubscribe(config, steps, filter);
    }
    forall k: nat | k < |order|
      ensures LatestSubscribe(s.calls, order[k], RequestsOf(s.desired, order)[k])
    {
      assert order[k] in order;
      DesiredIsSubscribe(config, steps, order[k]);
    }
  }

  /** With replay of subscriptions off, a successful replay sends the queue and nothing else. */
  lemma ReplayOffSendsQueue(config: BrokerReconnectConfig, s: Recovery, order: seq<string>, net: nat -> Exchange)
    requires !config.replaySubscriptions && Replayed(config, s, order, net, 0).result.Ok?
    ensures Replayed(config, s, order, net, 0).sent == s.queue
  {
  }

  lemma TrackFollows(before: Recovery, call: Call, after: Recovery)
    requires DesiredFollows(before)
    requires (call.tracked <==> !call.request.packet.PublishPacket?) && SingleFilter(call.request)
    requires after.calls == before.calls + [call]
    requires after.desired == if call.tracked then Track(before.desired, call.request) else before.desired
    ensures DesiredFollows(after)
  {
    assert DropLast(after.calls) == before.calls;
    assert DropLast(Requests(after.calls)) == Requests(before.calls);
    var filters := Filters(call.request.packet);
    assert call.tracked ==> filters == [filters[0]];
    forall filter
      ensures Verdict(Requests(after.calls), filter) == Some(true) <==> filter in after.desired
    {
    }
  }

  /** Where, in a history of calls, the last `n` queued ones begin. */
  function TailStart(calls: seq<Call>, n: nat): (start: nat)
    ensures start <= |calls|
  {
    if n == 0 || calls == [] then |calls|
    else if Last(calls).queued && n == 1 then |calls| - 1
    else TailStart(DropLast(calls), if Last(calls).queued then n - 1 else n)
  }

  /** From `start` on, every subscribe and unsubscribe call ended queued. */
  predicate AllQueuedSince(calls: seq<Call>, start: nat) {
    forall i :: start <= i < |calls| && calls[i].tracked ==> calls[i].queued
  }

  lemma WellTypedBefore(calls: seq<Call>)
    requires WellTyped(calls) && calls != []
    ensures WellTyped(DropLast(calls))
    ensures (Last(calls).tracked <==> !Last(calls).request.packet.PublishPacket?) && SingleFilter(Last(calls).request)
  {
    assert forall i :: 0 <= i < |calls| - 1 ==> DropLast(calls)[i] == calls[i];
  }

  lemma TailBefore(calls: seq<Call>, n: nat)
    requires calls != [] && n > 0 && AllQueuedSince(calls, TailStart(calls, n))
    ensures var m := if Last(calls).queued then n - 1 else n;
            m > 0 ==> AllQueuedSince(DropLast(calls), TailStart(DropLast(calls), m))
    ensures Last(calls).tracked ==> Last(calls).queued
  {
    assert forall i :: 0 <= i < |calls| - 1 ==> DropLast(calls)[i] == calls[i];
  }

  /** The last `n` requests the calls queued. */
  function QueuedTail(calls: seq<Call>, n: nat): seq<PacketRequest> {
    if n == 0 || calls == [] then []
    else if Last(calls).queued then QueuedTail(DropLast(calls), n - 1) + [Last(calls).request]
    else QueuedTail(DropLast(calls), n)
  }

  lemma {:induction false} QueuedTailIsSuffix(calls: seq<Call>, n: nat)
    requires n <= |QueuedRequests(calls)|
    ensures QueuedTail(calls, n) == QueuedRequests(calls)[|QueuedRequests(calls)| - n..]
  {
    if n > 0 {
      var before := QueuedRequests(DropLast(calls));
      if Last(calls).queued {
        QueuedTailIsSuffix(DropLast(calls), n - 1);
      } else {
        assert before + [] == before;
        QueuedTailIsSuffix(DropLast(calls), n);
      }
    }
  }

  /** If nothing bypassed the queue since its last `n` requests, their last words are the calls' last words. */
  lemma {:induction false} TailVerdict(calls: seq<Call>, n: nat, filter: string)
    requires WellTyped(calls) && AllQueuedSince(calls, TailStart(calls, n))
    ensures Verdict(QueuedTail(calls, n), filter).Some? ==>
              Verdict(Requests(calls), filter) == Verdict(QueuedTail(calls, n), filter)
  {
    if n > 0 && calls != [] {
      var before, last := DropLast(calls), Last(calls);
      var m := if last.queued then n - 1 else n;
      WellTypedBefore(calls);
      TailBefore(calls, n);
      if m > 0 {
        TailVerdict(before, m, filter);
      }
      assert DropLast(Requests(calls)) == Requests(before) && Last(Requests(calls)) == last.request;
      if last.queued {
        assert DropLast(QueuedTail(calls, n)) == QueuedTail(before, m);
      }
    }
  }

  /** The number of requests in the queue from its oldest subscribe or unsubscribe on. */
  function SinceOldestIntent(queue: seq<PacketRequest>): (n: nat)
    ensures n <= |queue|
  {
    if queue == [] then 0
    else if !queue[0].packet.PublishPacket? then |queue|
    else SinceOldestIntent(queue[1..])
  }

  lemma PublishSaysNothing(queue: seq<PacketRequest>, filter: string)
    requires queue != [] && queue[0].packet.PublishPacket?
    ensures Verdict(queue, filter) == Verdict(queue[1..], filter)
  {
    VerdictAppend([queue[0]], queue[1..], filter);
    assert [queue[0]] + queue[1..] == queue;
  }

  /** Publish packets say nothing about any filter. */
  lemma {:induction false} VerdictSinceOldest(queue: seq<PacketRequest>, filter: string)
    ensures Verdict(queue, filter) == Verdict(queue[|queue| - SinceOldestIntent(queue)..], filter)
  {
    var n := SinceOldestIntent(queue);
    if queue == [] || !queue[0].packet.PublishPacket? {
      assert queue[|queue| - n..] == queue;
    } else {
      PublishSaysNothing(queue, filter);
      VerdictSinceOldest(queue[1..], filter);
      assert queue[1..][|queue[1..]| - n..] == queue[|queue| - n..];
    }
  }

  /** The requests still queued are the last ones the calls queued. */
  lemma QueueIsTail(bound: nat, s: Recovery, n: nat)
    requires Conserved(bound, s) && n <= |s.queue|
    ensures QueuedTail(s.calls, n) == s.queue[|s.queue| - n..]
  {
    QueuedTailIsSuffix(s.calls, n);
  }

  lemma FilterAgrees(bound: nat, s: Recovery, filter: string)
    requires Conserved(bound, s) && WellTyped(s.calls)
    requires AllQueuedSince(s.calls, TailStart(s.calls, SinceOldestIntent(s.queue)))
    requires Verdict(s.queue, filter).Some?
    ensures Verdict(Requests(s.calls), filter) == Verdict(s.queue, filter)
  {
    var n := SinceOldestIntent(s.queue);
    assert Verdict(QueuedTail(s.calls, n), filter) == Verdict(s.queue, filter) by {
      QueueIsTail(bound, s, n);
      VerdictSinceOldest(s.queue, filter);
    }
    TailVerdict(s.calls, n, filter);
  }

  /** Not bypassing the queue makes its last words the tracked ones. */
  lemma TailAgrees(bound: nat, s: Recovery)
    requires Conserved(bound, s) && WellTyped(s.calls) && DesiredFollows(s)
    requires AllQueuedSince(s.calls, TailStart(s.calls, SinceOldestIntent(s.queue)))
    ensures QueueAgrees(s)
  {
    forall filter | Verdict(s.queue, filter).Some?
      ensures Verdict(s.queue, filter).value <==> filter in s.desired
    {
      FilterAgrees(bound, s, filter);
    }
  }

  lemma SuccessSendsAll(config: BrokerReconnectConfig, s: Recovery, order: seq<string>, net: nat -> Exchange, at: nat)
    requires config.replaySubscriptions && Replayed(config, s, order, net, at).result.Ok?
    ensures Replayed(config, s, order, net, at).sent == RequestsOf(s.desired, order) + s.queue
  {
  }

  /**
   * Recovery converges: after any run, if every subscribe and unsubscribe since the oldest one
   * still queued was itself queued, a successful replay leaves a broker that started without
   * subscriptions with exactly the desired filters, whatever was evicted or dropped before and in
   * whatever order the desired set is sent.
   */
  lemma RecoveryConverges(config: BrokerReconnectConfig, steps: seq<Step>, order: seq<string>, net: nat -> Exchange,
                          s: Recovery)
    requires config.replaySubscriptions && s == Run(config, steps)
    requires WellTyped(s.calls) && Enumerates(order, s.desired)
    requires AllQueuedSince(s.calls, TailStart(s.calls, SinceOldestIntent(s.queue)))
    requires Replayed(config, s, order, net, 0).result.Ok?
    ensures ServeAll({}, Replayed(config, s, order, net, 0).sent) == s.desired.Keys
  {
    RunTracksCalls(config, steps);
    RunConserves(config, steps);
    TailAgrees(config.maxQueuedRequests, s);
    SingleNamesOnlyDesired(s);
    ReplayConvergesIff(config, s, order);
    SuccessSendsAll(config, s, order, net, 0);
  }

  lemma RunTwo(config: BrokerReconnectConfig, first: Step, second: Step)
    ensures Run(config, [first, second]) == After(config, After(config, INITIAL, first), second)
  {
    assert DropLast([first, second]) == [first] && DropLast([first]) == [];
    assert Run(config, [first]) == After(config, Run(config, []), first);
  }

  /** A subscribe the listener never served is queued; an unsubscribe is then served directly. */
  function StaleSteps(subscribe: PacketRequest, unsubscribe: PacketRequest): seq<Step> {
    [CallStep(subscribe, true, LISTENER_GONE, true),
     CallStep(unsubscribe, true,
              LISTENER_GONE.(command := Answered(Sent(Arrived([ResultMessage(unsubscribe.commandId)])))), true)]
  }

  lemma StaleState(config: BrokerReconnectConfig, filter: string, subscribe: PacketRequest, unsubscribe: PacketRequest)
    requires config.queueRequestsWhileDisconnected
    requires subscribe.packet.SubscribePacket? && Filters(subscribe.packet) == [filter]
    requires unsubscribe.packet.UnsubscribePacket? && Filters(unsubscribe.packet) == [filter]
    ensures var s := Run(config, StaleSteps(subscribe, unsubscribe)); s.desired == map[] && s.queue == [subscribe]
  {
    var steps := StaleSteps(subscribe, unsubscribe);
    RunTwo(config, steps[0], steps[1]);
    var tracked := After(config, INITIAL, steps[0]);
    assert tracked.queue == [subscribe] && tracked.desired == map[filter := subscribe];
    assert After(config, tracked, steps[1]).desired == map[];
  }

  /**
   * The condition is needed: with queueing on, a subscribe that ended queued and an unsubscribe the
   * broker acknowledged leave nothing desired, and the replay resurrects the subscription.
   */
  lemma StaleQueueResurrects(config: BrokerReconnectConfig, filter: string, subscribe: PacketRequest, unsubscribe: PacketRequest)
    requires config.replaySubscriptions && config.queueRequestsWhileDisconnected
    requires subscribe.packet.SubscribePacket? && Filters(subscribe.packet) == [filter]
    requires unsubscribe.packet.UnsubscribePacket? && Filters(unsubscribe.packet) == [filter]
    ensures var s := Run(config, StaleSteps(subscribe, unsubscribe));
            s.desired == map[] && BrokerAfterReplay(config, s, []) == {filter}
  {
    StaleState(config, filter, subscribe, unsubscribe);
    assert [] + [subscribe] == [subscribe] && DropLast([subscribe]) == [];
    assert ServeAll({}, [subscribe]) == Serve({}, subscribe) == Named(subscribe) == {filter};
  }
}
