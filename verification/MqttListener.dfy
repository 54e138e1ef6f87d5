/**
 * The background listener: serving commands, polling, reconnecting with backoff, and how it ends.
 * `Step` is the listener as a state machine driven by one environment choice at a time; the
 * methods of `MqttListener` are its nested loops, proved to run that machine.
 */
module MqttListener {
  import opened Wrappers
  import opened Widths
  import opened Backoff
  import opened Sinks
  import MqttRecovery

  datatype SlotOutcome = SlotLockFailed | SlotEmpty | SlotTaken

  datatype CommandKind = PublishCommand | SubscribeCommand | UnsubscribeCommand

  /**
   * A pending command and the events its acknowledgement read brought, which it can do even when it
   * fails; `awaited` says whether the caller is still there to take the answer.
   */
  datatype CommandOutcome =
    | NoCommand
    | Served(kind: CommandKind, read: seq<Event>, awaited: bool)
    | CommandFailed(kind: CommandKind, read: seq<Event>, error: string)

  /** One poll; a read can decode events before it fails. */
  datatype ReadOutcome = Messages(events: seq<Event>) | ReadFailed(read: seq<Event>, error: string)

  /** One reconnect: the events read with the CONNACK, and those the replay read, whether or not it failed. */
  datatype ConnectOutcome =
    | ConnectFailed(handshake: seq<Event>, error: string)
    | LockFailedAfterConnect(handshake: seq<Event>)
    | SessionMissing(handshake: seq<Event>)
    | ReplayFailed(handshake: seq<Event>, recovered: seq<Event>, error: string)
    | Reconnected(handshake: seq<Event>, recovered: seq<Event>)

  /**
   * Everything outside the listener's control at one point of its run. `stopped` and
   * `stoppedLater` say whether the running flag is found cleared at the first and the second
   * load there; `poisons` breaks the listener-error mutex for good.
   */
  datatype Choice = Choice(
    stopped: bool,
    stoppedLater: bool,
    poisons: bool,
    slot: SlotOutcome,
    command: CommandOutcome,
    read: ReadOutcome,
    connect: ConnectOutcome)

  datatype Cause = StopRequested | SinkRejected | AttemptsExhausted | SessionLockFailed

  datatype Pc =
    | AtHead
    | WithSession
    | Reconnecting(viaCommand: bool, error: string)
    | Done(cause: Cause)

  datatype Destination = ToSink | ToCaller | Lost

  /** How events came to be read; `ok` says whether the read, the command or the replay went through. */
  datatype Origin =
    | Polling(ok: bool)
    | ForCommand(kind: CommandKind, ok: bool, awaited: bool)
    | InHandshake
    | InReplay(ok: bool, viaCommand: bool)
  {
    function Goes(): Destination {
      match this
      case Polling(ok) => if ok then ToSink else Lost
      case ForCommand(kind, ok, awaited) => if kind.SubscribeCommand? && ok && awaited then ToCaller else Lost
      case InHandshake => Lost
      case InReplay(ok, viaCommand) => if ok && viaCommand then ToSink else Lost
    }
  }

  /** The events of one read, and how it came about. */
  datatype Batch = Batch(origin: Origin, events: seq<Event>)

  datatype Action =
    | Head(attempt: uint32)
    | Outage(viaCommand: bool)
    | Slept(ms: int)
    | Connect
    | Read(batch: Batch)

  datatype Listener = Listener(
    pc: Pc,
    attempt: uint32,
    error: Option<string>,
    poisoned: bool,
    delivered: seq<Event>,
    returned: seq<Event>,
    trace: seq<Action>)

  const START: Listener := Listener(AtHead, 0, None, false, [], [], [Head(0)])
  const LOCK_ERROR: string := "failed to lock MQTT session while listening"
  const RELOCK_ERROR: string := "failed to lock MQTT session after reconnect"
  const MISSING_ERROR: string := "MQTT session missing after reconnect"

  function WithError(s: Listener, error: Option<string>): Listener {
    if s.poisoned then s else s.(error := error)
  }

  function ToHead(s: Listener): Listener {
    s.(pc := AtHead, trace := s.trace + [Head(s.attempt)])
  }

  /** Offers a batch to the sink; a refusal ends the listener. */
  function Offer(sink: nat -> bool, s: Listener, batch: Batch): Listener {
    var (delivered, accepted) := Forward(sink, s.delivered, batch.events);
    var offered := s.(delivered := delivered, trace := s.trace + [Read(batch)]);
    if accepted then offered else WithError(offered, Some(SINK_ERROR)).(pc := Done(SinkRejected))
  }

  /** Answers the caller of a command with a batch. */
  function Return(s: Listener, batch: Batch): Listener {
    s.(returned := s.returned + batch.events, trace := s.trace + [Read(batch)])
  }

  /** Drops a batch. */
  function Drop(s: Listener, batch: Batch): Listener {
    s.(trace := s.trace + [Read(batch)])
  }

  function Resumed(s: Listener): Listener {
    if s.pc.Done? then s else ToHead(WithError(s, None).(attempt := 0))
  }

  function Polled(s: Listener): Listener {
    if s.pc.Done? then s else ToHead(s)
  }

  function AfterConnect(sink: nat -> bool, before: Listener, viaCommand: bool, outcome: ConnectOutcome): Listener {
    var s := Drop(before, Batch(InHandshake, outcome.handshake));
    match outcome
    case ConnectFailed(_, error) => s.(pc := Reconnecting(viaCommand, error))
    case LockFailedAfterConnect(_) => s.(pc := Reconnecting(viaCommand, RELOCK_ERROR))
    case SessionMissing(_) => s.(pc := Reconnecting(viaCommand, MISSING_ERROR))
    case ReplayFailed(_, recovered, error) =>
      Drop(s, Batch(InReplay(false, viaCommand), recovered)).(pc := Reconnecting(viaCommand, error))
    case Reconnected(_, recovered) =>
      var batch := Batch(InReplay(true, viaCommand), recovered);
      Resumed(if viaCommand then Offer(sink, s, batch) else Drop(s, batch))
  }

  function Retry(config: BrokerReconnectConfig, sink: nat -> bool, s: Listener, c: Choice): Listener
    requires s.pc.Reconnecting?
  {
    var attempt := SaturatingIncrement(s.attempt);
    if c.stopped then s.(pc := Done(StopRequested))
    else if !config.AllowsAttempt(attempt) then
      if c.stoppedLater then s.(attempt := attempt, pc := Done(StopRequested))
      else WithError(s, Some(s.pc.error)).(attempt := attempt, pc := Done(AttemptsExhausted))
    else
      var slept := s.(attempt := attempt, trace := s.trace + [Slept(config.DelayMs(attempt))]);
      if c.stoppedLater then slept.(pc := Done(StopRequested))
      else AfterConnect(sink, slept.(trace := slept.trace + [Connect]), s.pc.viaCommand, c.connect)
  }

  function Serve(sink: nat -> bool, s: Listener, c: Choice): Listener {
    match c.command
    case Served(kind, read, awaited) =>
      var batch := Batch(ForCommand(kind, true, awaited), read);
      if kind.SubscribeCommand? && awaited then Return(s, batch) else Drop(s, batch)
    case CommandFailed(kind, read, error) =>
      var dropped := Drop(s, Batch(ForCommand(kind, false, false), read));
      dropped.(pc := Reconnecting(true, error), trace := dropped.trace + [Outage(true)])
    case NoCommand =>
      match c.read
      case Messages(events) => Polled(Offer(sink, s.(attempt := 0), Batch(Polling(true), events)))
      case ReadFailed(read, error) =>
        var dropped := Drop(s, Batch(Polling(false), read));
        dropped.(pc := Reconnecting(false, error), trace := dropped.trace + [Outage(false)])
  }

  function Step(config: BrokerReconnectConfig, sink: nat -> bool, before: Listener, c: Choice): Listener {
    var s := before.(poisoned := before.poisoned || c.poisons);
    match s.pc
    case Done(_) => before
    case AtHead =>
      if c.stopped then s.(pc := Done(StopRequested))
      else (match c.slot
            case SlotLockFailed => WithError(s, Some(LOCK_ERROR)).(pc := Done(SessionLockFailed))
            case SlotEmpty => ToHead(s)
            case SlotTaken => s.(pc := WithSession))
    case WithSession => Serve(sink, s, c)
    case Reconnecting(_, _) => Retry(config, sink, s, c)
  }

  function Run(config: BrokerReconnectConfig, sink: nat -> bool, script: seq<Choice>): Listener {
    if script == [] then START else Step(config, sink, Run(config, sink, DropLast(script)), Last(script))
  }

  /** The listener told to stop once the script is used up. */
  function Closed(s: Listener): Listener {
    if s.pc.Done? then s else s.(pc := Done(StopRequested))
  }

  predicate Failed(s: Listener) {
    s.poisoned || s.error.Some?
  }

  // ----- the nested loops -----

  lemma RunNext(config: BrokerReconnectConfig, sink: nat -> bool, script: seq<Choice>, n: nat)
    requires n < |script|
    ensures Run(config, sink, script[..n + 1]) == Step(config, sink, Run(config, sink, script[..n]), script[n])
  {
    assert DropLast(script[..n + 1]) == script[..n];
  }

  lemma {:induction false} RunDone(config: BrokerReconnectConfig, sink: nat -> bool, script: seq<Choice>, n: nat)
    requires n <= |script| && Run(config, sink, script[..n]).pc.Done?
    ensures Run(config, sink, script) == Run(config, sink, script[..n])
  {
    if n == |script| {
      assert script[..n] == script;
    } else {
      assert DropLast(script)[..n] == script[..n];
      RunDone(config, sink, DropLast(script), n);
    }
  }

  class MqttListener {
    const config: BrokerReconnectConfig
    const sink: nat -> bool
    const script: seq<Choice>
    var pos: nat
    var reconnectAttempt: uint32
    var listenerError: Option<string>
    var poisoned: bool
    var delivered: seq<Event>
    var returned: seq<Event>
    var running: bool
    var commandSenderSet: bool
    ghost var trace: seq<Action>

    constructor (config: BrokerReconnectConfig, sink: nat -> bool, script: seq<Choice>)
      ensures this.config == config && this.sink == sink && this.script == script
      ensures running && pos == 0 && State(AtHead) == START
    {
      this.config, this.sink, this.script := config, sink, script;
      pos, reconnectAttempt, listenerError, poisoned, delivered, returned := 0, 0, None, false, [], [];
      running, commandSenderSet, trace := true, true, [Head(0)];
    }

    ghost function State(pc: Pc): Listener
      reads this
    {
      Listener(pc, reconnectAttempt, listenerError, poisoned, delivered, returned, trace)
    }

    /** The fields are the machine's state after the choices consumed so far, at control point `pc`. */
    ghost predicate At(pc: Pc)
      reads this
    {
      pos <= |script| && State(pc) == Run(config, sink, script[..pos])
    }

    /** The control point a loop leaves to: the head again, or the end with a cause. */
    ghost predicate Left(cause: Option<Cause>)
      reads this
    {
      if cause.None? then At(AtHead) else State(Done(cause.value)) == Closed(Run(config, sink, script))
    }

    method SetError(error: Option<string>)
      modifies this`listenerError
      ensures listenerError == if poisoned then old(listenerError) else error
    {
      if !poisoned {
        listenerError := error;
      }
    }

    method OfferAll(events: seq<Event>, ghost origin: Origin) returns (accepted: bool)
      modifies this`delivered, this`trace
      ensures (delivered, accepted) == Forward(sink, old(delivered), events)
      ensures trace == old(trace) + [Read(Batch(origin, events))]
    {
      trace := trace + [Read(Batch(origin, events))];
      delivered, accepted := ForwardAll(sink, delivered, events);
    }

    ghost method Dropped(events: seq<Event>, origin: Origin)
      modifies this`trace
      ensures trace == old(trace) + [Read(Batch(origin, events))]
    {
      trace := trace + [Read(Batch(origin, events))];
    }

    /** Answers a served command; only a subscribe is answered with the events read. */
    method Answer(kind: CommandKind, read: seq<Event>, awaited: bool)
      modifies this`returned, this`trace
      ensures var batch := Batch(ForCommand(kind, true, awaited), read);
              State(WithSession) == if kind.SubscribeCommand? && awaited then Return(old(State(WithSession)), batch)
                                    else Drop(old(State(WithSession)), batch)
    {
      if kind.SubscribeCommand? && awaited {
        returned := returned + read;
      }
      Dropped(read, ForCommand(kind, true, awaited));
    }

    /** Consumes the next environment choice. */
    method TakeChoice() returns (c: Choice)
      requires pos < |script|
      modifies this`pos, this`poisoned
      ensures pos == old(pos) + 1 && c == script[old(pos)] && poisoned == (old(poisoned) || c.poisons)
    {
      c := script[pos];
      pos, poisoned := pos + 1, poisoned || c.poisons;
    }

    ghost method Finish(cause: Cause)
      requires pos <= |script| && State(Done(cause)) == Run(config, sink, script[..pos])
      ensures Left(Some(cause))
    {
      RunDone(config, sink, script, pos);
    }

    ghost method ScriptUsedUp(pc: Pc)
      requires At(pc) && pos == |script| && !pc.Done?
      ensures Left(Some(StopRequested))
    {
      assert script[..pos] == script;
    }

    /** The reconnect loop, entered after a failed command or a failed read. */
    method Reconnect(viaCommand: bool, first: string) returns (cause: Option<Cause>)
      requires At(Reconnecting(viaCommand, first))
      modifies this`pos, this`reconnectAttempt, this`listenerError, this`poisoned, this`delivered, this`returned, this`trace
      ensures Left(cause) && pos >= old(pos)
    {
      var error := first;
      while pos < |script|
        invariant At(Reconnecting(viaCommand, error)) && pos >= old(pos)
      {
        var next := RetryRound(viaCommand, error);
        match next {
          case Reconnecting(_, e) =>
            error := e;
          case Done(ending) =>
            Finish(ending);
            return Some(ending);
          case _ =>
            return None;
        }
      }
      ScriptUsedUp(Reconnecting(viaCommand, error));
      return Some(StopRequested);
    }

    method RetryRound(viaCommand: bool, error: string) returns (next: Pc)
      requires At(Reconnecting(viaCommand, error)) && pos < |script|
      modifies this`pos, this`reconnectAttempt, this`listenerError, this`poisoned, this`delivered, this`returned, this`trace
      ensures At(next) && pos == old(pos) + 1
      ensures next.AtHead? || next.Done? || (next.Reconnecting? && next.viaCommand == viaCommand)
    {
      RunNext(config, sink, script, pos);
      var c := TakeChoice();
      next := RetryOnce(viaCommand, error, c);
    }

    /** One round of the reconnect loop; says where the listener goes next. */
    method RetryOnce(viaCommand: bool, error: string, c: Choice) returns (next: Pc)
      modifies this`reconnectAttempt, this`listenerError, this`delivered, this`trace
      ensures State(next) == Retry(config, sink, old(State(Reconnecting(viaCommand, error))), c)
      ensures next.AtHead? || next.Done? || (next.Reconnecting? && next.viaCommand == viaCommand)
    {
      if c.stopped {
        return Done(StopRequested);
      }
      reconnectAttempt := SaturatingIncrement(reconnectAttempt);
      if !config.AllowsAttempt(reconnectAttempt) {
        if c.stoppedLater {
          return Done(StopRequested);
        }
        SetError(Some(error));
        return Done(AttemptsExhausted);
      }
      var delay := config.DelayMsForAttempt(reconnectAttempt);
      trace := trace + [Slept(delay)];
      if c.stoppedLater {
        return Done(StopRequested);
      }
      next := TryConnect(viaCommand, error, c.connect);
    }

    /** One connect and, if it succeeds, one replay; says where the listener goes next. */
    method TryConnect(viaCommand: bool, error: string, outcome: ConnectOutcome) returns (next: Pc)
      modifies this`reconnectAttempt, this`listenerError, this`delivered, this`trace
      ensures State(next) ==
              var s := old(State(Reconnecting(viaCommand, error)));
              AfterConnect(sink, s.(trace := s.trace + [Connect]), viaCommand, outcome)
      ensures next.AtHead? || next.Done? || (next.Reconnecting? && next.viaCommand == viaCommand)
    {
      trace := trace + [Connect];
      Dropped(outcome.handshake, InHandshake);
      match outcome {
        case ConnectFailed(_, e) => next := Reconnecting(viaCommand, e);
        case LockFailedAfterConnect(_) => next := Reconnecting(viaCommand, RELOCK_ERROR);
        case SessionMissing(_) => next := Reconnecting(viaCommand, MISSING_ERROR);
        case ReplayFailed(_, recovered, e) =>
          Dropped(recovered, InReplay(false, viaCommand));
          next := Reconnecting(viaCommand, e);
        case Reconnected(_, recovered) =>
          var cause := Resume(viaCommand, recovered);
          next := if cause.Some? then Done(cause.value) else AtHead;
      }
    }

    /** A reconnect and its replay succeeded: recovered events are forwarded only on the command path. */
    method Resume(viaCommand: bool, recovered: seq<Event>) returns (cause: Option<Cause>)
      modifies this`reconnectAttempt, this`listenerError, this`delivered, this`trace
      ensures var s, batch := old(State(Reconnecting(viaCommand, ""))), Batch(InReplay(true, viaCommand), recovered);
              var after := Resumed(if viaCommand then Offer(sink, s, batch) else Drop(s, batch));
              if cause.None? then State(AtHead) == after else State(Done(cause.value)) == after
    {
      if viaCommand {
        var accepted := OfferAll(recovered, InReplay(true, true));
        if !accepted {
          SetError(Some(SINK_ERROR));
          return Some(SinkRejected);
        }
      } else {
        Dropped(recovered, InReplay(true, false));
      }
      reconnectAttempt := 0;
      SetError(None);
      trace := trace + [Head(reconnectAttempt)];
      cause := None;
    }

    /** One look at the command channel, and what the session will read if it is empty. */
    method NextCommand() returns (c: Choice)
      requires At(WithSession) && pos < |script|
      modifies this`pos, this`poisoned
      ensures pos == old(pos) + 1 <= |script|
      ensures Run(config, sink, script[..pos]) == Serve(sink, State(WithSession), c)
    {
      RunNext(config, sink, script, pos);
      c := TakeChoice();
    }

    /** Drains pending commands on the taken session, then polls it once. */
    method ServeSession() returns (cause: Option<Cause>)
      requires At(WithSession)
      modifies this`pos, this`reconnectAttempt, this`listenerError, this`poisoned, this`delivered, this`returned, this`trace
      ensures Left(cause) && pos >= old(pos)
    {
      while pos < |script|
        invariant At(WithSession) && pos >= old(pos)
      {
        var c := NextCommand();
        match c.command {
          case Served(kind, read, awaited) =>
            Answer(kind, read, awaited);
          case CommandFailed(kind, read, error) =>
            Dropped(read, ForCommand(kind, false, false));
            trace := trace + [Outage(true)];
            cause := Reconnect(true, error);
            return;
          case NoCommand =>
            cause := Poll(c.read);
            return;
        }
      }
      ScriptUsedUp(WithSession);
      return Some(StopRequested);
    }

    method Poll(read: ReadOutcome) returns (cause: Option<Cause>)
      requires pos <= |script|
      requires match read
               case Messages(events) =>
                 Polled(Offer(sink, State(WithSession).(attempt := 0), Batch(Polling(true), events)))
                 == Run(config, sink, script[..pos])
               case ReadFailed(lost, error) =>
                 State(Reconnecting(false, error)).(trace := trace + [Read(Batch(Polling(false), lost))] + [Outage(false)])
                 == Run(config, sink, script[..pos])
      modifies this`pos, this`reconnectAttempt, this`listenerError, this`poisoned, this`delivered, this`returned, this`trace
      ensures Left(cause) && pos >= old(pos)
    {
      match read {
        case Messages(events) =>
          reconnectAttempt := 0;
          var accepted := OfferAll(events, Polling(true));
          if !accepted {
            SetError(Some(SINK_ERROR));
            Finish(SinkRejected);
            return Some(SinkRejected);
          }
          trace := trace + [Head(reconnectAttempt)];
          cause := None;
        case ReadFailed(lost, error) =>
          Dropped(lost, Polling(false));
          trace := trace + [Outage(false)];
          cause := Reconnect(false, error);
      }
    }

    /** One look at the running flag and the session slot; says where the listener goes next. */
    method TakeSession(c: Choice) returns (next: Pc)
      modifies this`listenerError, this`trace
      ensures State(next) == Step(config, sink, old(State(AtHead)), c.(poisons := false))
      ensures next.AtHead? || next.WithSession? || next.Done?
    {
      if c.stopped {
        return Done(StopRequested);
      }
      match c.slot {
        case SlotLockFailed =>
          SetError(Some(LOCK_ERROR));
          next := Done(SessionLockFailed);
        case SlotEmpty =>
          trace := trace + [Head(reconnectAttempt)];
          next := AtHead;
        case SlotTaken =>
          next := WithSession;
      }
    }

    method Enter() returns (next: Pc)
      requires At(AtHead) && pos < |script|
      modifies this`pos, this`poisoned, this`listenerError, this`trace
      ensures At(next) && pos == old(pos) + 1
      ensures next.AtHead? || next.WithSession? || next.Done?
    {
      RunNext(config, sink, script, pos);
      var c := TakeChoice();
      next := TakeSession(c);
    }

    /** One iteration of the outer loop. */
    method Iterate() returns (left: Option<Cause>)
      requires At(AtHead)
      modifies this`pos, this`reconnectAttempt, this`listenerError, this`poisoned, this`delivered, this`returned, this`trace
      ensures Left(left) && pos >= old(pos) && (left.Some? || pos > old(pos))
    {
      if pos == |script| {
        ScriptUsedUp(AtHead);
        return Some(StopRequested);
      }
      var next := Enter();
      match next {
        case AtHead =>
          left := None;
        case WithSession =>
          left := ServeSession();
        case Done(ending) =>
          Finish(ending);
          left := Some(ending);
      }
    }

    /** The listener task from start to exit. */
    method Listen() returns (cause: Cause, failed: bool)
      requires running && At(AtHead)
      modifies this
      ensures State(Done(cause)) == Closed(Run(config, sink, script))
      ensures !running && !commandSenderSet
      ensures failed <==> Failed(Closed(Run(config, sink, script)))
    {
      var left: Option<Cause> := None;
      while left.None?
        invariant Left(left)
        decreases |script| - pos, left.None?
      {
        left := Iterate();
      }
      commandSenderSet := false;
      running := false;
      failed := poisoned || listenerError.Some?;
      cause := left.value;
    }
  }

  // ----- every run -----

  /** Reconnect rounds slept through since the outage began, counted without a width. */
  function Rounds(trace: seq<Action>): nat {
    if trace == [] || Last(trace).Outage? || Last(trace).Head? then 0
    else Rounds(DropLast(trace)) + if Last(trace).Slept? then 1 else 0
  }

  /** Connects tried since the outage began. */
  function Connects(trace: seq<Action>): nat {
    if trace == [] || Last(trace).Outage? || Last(trace).Head? then 0
    else Connects(DropLast(trace)) + if Last(trace).Connect? then 1 else 0
  }

  function Saturated(n: nat): uint32 {
    Min(n, UINT32_MAX)
  }

  /** What began the outage the listener is in, by its flag: a failed command, or a failed read. */
  function OutageCause(trace: seq<Action>): Option<bool> {
    if trace == [] || Last(trace).Head? then None
    else if Last(trace).Outage? then Some(Last(trace).viaCommand)
    else OutageCause(DropLast(trace))
  }

  /** The outage directly follows the read of a command that failed, or else of a poll that failed. */
  predicate Begins(before: seq<Action>, viaCommand: bool) {
    && before != [] && Last(before).Read?
    && match Last(before).batch.origin
       case ForCommand(_, ok, _) => !ok && viaCommand
       case Polling(ok) => !ok && !viaCommand
       case _ => false
  }

  predicate Permitted(config: BrokerReconnectConfig, before: seq<Action>, action: Action) {
    match action
    case Head(attempt) => attempt == 0
    case Slept(ms) =>
      var n := Saturated(Rounds(before) + 1);
      config.AllowsAttempt(n) && ms == config.DelayMs(n)
    case Connect => before != [] && Last(before).Slept?
    case Read(batch) => batch.origin.InReplay? ==> OutageCause(before) == Some(batch.origin.viaCommand)
    case Outage(viaCommand) => Begins(before, viaCommand)
  }

  /**
   * The reconnect discipline: the attempt counter is 0 at every head; an outage begins with a failed
   * command or a failed poll; its n-th round sleeps the policy's n-th delay and is permitted by it; a
   * connect follows its own sleep; and a replay is recorded under what began its outage.
   */
  predicate Paced(config: BrokerReconnectConfig, trace: seq<Action>) {
    trace == [] || (Paced(config, DropLast(trace)) && Permitted(config, DropLast(trace), Last(trace)))
  }

  /** The batches a trace read, in order. */
  function BatchesIn(trace: seq<Action>): seq<Batch> {
    if trace == [] then []
    else if Last(trace).Read? then BatchesIn(DropLast(trace)) + [Last(trace).batch]
    else BatchesIn(DropLast(trace))
  }

  /** The events of the batches bound for one destination, in order. */
  function EventsTo(to: Destination, batches: seq<Batch>): seq<Event> {
    if batches == [] then []
    else if Last(batches).origin.Goes() == to then EventsTo(to, DropLast(batches)) + Last(batches).events
    else EventsTo(to, DropLast(batches))
  }

  function Bound(to: Destination, trace: seq<Action>): seq<Event> {
    EventsTo(to, BatchesIn(trace))
  }

  /** What every reachable listener state satisfies. */
  predicate Sound(config: BrokerReconnectConfig, s: Listener) {
    && Paced(config, s.trace)
    && Connects(s.trace) <= Rounds(s.trace)
    && s.returned == Bound(ToCaller, s.trace)
    && (s.pc.AtHead? || s.pc.WithSession? ==> s.attempt == 0)
    && (s.pc.Reconnecting? ==>
          && s.attempt == Saturated(Rounds(s.trace)) && Connects(s.trace) == Rounds(s.trace)
          && OutageCause(s.trace) == Some(s.pc.viaCommand))
    && (!s.pc.Done? ==> s.error.None? && s.delivered == Bound(ToSink, s.trace))
    && (s.pc.Done? ==>
          && s.delivered <= Bound(ToSink, s.trace)
          && (s.pc.cause != SinkRejected <==> s.delivered == Bound(ToSink, s.trace))
          && (s.pc.cause == StopRequested ==> s.error.None?)
          && (s.pc.cause != StopRequested ==> s.poisoned || s.error.Some?)
          && (s.pc.cause == AttemptsExhausted ==>
                Connects(s.trace) == Rounds(s.trace) && !config.AllowsAttempt(Saturated(Rounds(s.trace) + 1))))
  }

  lemma Appended(trace: seq<Action>, action: Action)
    ensures var after := trace + [action];
            && DropLast(after) == trace && Last(after) == action
            && Rounds(after) == (if action.Outage? || action.Head? then 0
                                 else Rounds(trace) + if action.Slept? then 1 else 0)
            && Connects(after) == (if action.Outage? || action.Head? then 0
                                   else Connects(trace) + if action.Connect? then 1 else 0)
            && BatchesIn(after) == (if action.Read? then BatchesIn(trace) + [action.batch] else BatchesIn(trace))
            && OutageCause(after) == (if action.Head? then None
                                      else if action.Outage? then Some(action.viaCommand) else OutageCause(trace))
  {
  }

  lemma BoundAppended(to: Destination, trace: seq<Action>, action: Action)
    ensures Bound(to, trace + [action])
         == if action.Read? && action.batch.origin.Goes() == to then Bound(to, trace) + action.batch.events
            else Bound(to, trace)
  {
    Appended(trace, action);
    if action.Read? {
      assert DropLast(BatchesIn(trace) + [action.batch]) == BatchesIn(trace);
    }
  }

  /** A running listener whose trace and events are in order. */
  predicate Tidy(config: BrokerReconnectConfig, s: Listener) {
    && Paced(config, s.trace) && s.error.None? && !s.pc.Done?
    && s.delivered == Bound(ToSink, s.trace) && s.returned == Bound(ToCaller, s.trace)
  }

  /** The counts of rounds and connects, and the cause of the outage, are the same. */
  predicate SameOutage(s: Listener, after: Listener) {
    && Rounds(after.trace) == Rounds(s.trace) && Connects(after.trace) == Connects(s.trace)
    && OutageCause(after.trace) == OutageCause(s.trace) && after.attempt == s.attempt
  }

  lemma RecordKeeps(config: BrokerReconnectConfig, s: Listener, action: Action)
    requires Tidy(config, s) && Permitted(config, s.trace, action)
    requires action.Read? ==> action.batch.origin.Goes() == Lost
    ensures Tidy(config, s.(trace := s.trace + [action]))
    ensures action.Read? ==> SameOutage(s, s.(trace := s.trace + [action]))
  {
    Appended(s.trace, action);
    BoundAppended(ToSink, s.trace, action);
    BoundAppended(ToCaller, s.trace, action);
  }

  lemma ReturnKeeps(config: BrokerReconnectConfig, s: Listener, batch: Batch)
    requires Tidy(config, s) && batch.origin.Goes() == ToCaller
    ensures Tidy(config, Return(s, batch)) && SameOutage(s, Return(s, batch))
  {
    Appended(s.trace, Read(batch));
    BoundAppended(ToSink, s.trace, Read(batch));
    BoundAppended(ToCaller, s.trace, Read(batch));
  }

  /** Offering a batch keeps the accounting: everything is delivered, or the sink refused one. */
  lemma OfferKeeps(config: BrokerReconnectConfig, sink: nat -> bool, s: Listener, batch: Batch)
    requires Tidy(config, s) && batch.origin.Goes() == ToSink && Permitted(config, s.trace, Read(batch))
    ensures var o := Offer(sink, s, batch);
            && SameOutage(s, o)
            && (!o.pc.Done? ==> Tidy(config, o) && o.pc == s.pc)
            && (o.pc.Done? ==>
                  && Paced(config, o.trace) && o.pc.cause == SinkRejected && (o.poisoned || o.error.Some?)
                  && o.delivered <= Bound(ToSink, o.trace) && o.delivered != Bound(ToSink, o.trace)
                  && o.returned == Bound(ToCaller, o.trace))
  {
    ForwardPrefix(sink, s.delivered, batch.events);
    Appended(s.trace, Read(batch));
    BoundAppended(ToSink, s.trace, Read(batch));
    BoundAppended(ToCaller, s.trace, Read(batch));
  }

  lemma HeadReached(config: BrokerReconnectConfig, s: Listener)
    requires Tidy(config, s) && s.attempt == 0
    ensures Sound(config, ToHead(s))
  {
    Appended(s.trace, Head(0));
    RecordKeeps(config, s, Head(0));
  }

  lemma OfferSound(config: BrokerReconnectConfig, sink: nat -> bool, s: Listener, batch: Batch)
    requires Tidy(config, s) && batch.origin.Goes() == ToSink && Permitted(config, s.trace, Read(batch))
    requires Connects(s.trace) <= Rounds(s.trace)
    ensures s.attempt == 0 ==> Sound(config, Polled(Offer(sink, s, batch)))
    ensures Sound(config, Resumed(Offer(sink, s, batch)))
  {
    OfferKeeps(config, sink, s, batch);
    var o := Offer(sink, s, batch);
    if !o.pc.Done? {
      HeadReached(config, o.(attempt := 0));
      if s.attempt == 0 {
        HeadReached(config, o);
      }
    }
  }

  lemma ConnectSound(config: BrokerReconnectConfig, sink: nat -> bool, s: Listener, viaCommand: bool, outcome: ConnectOutcome)
    requires Tidy(config, s) && OutageCause(s.trace) == Some(viaCommand)
    requires Connects(s.trace) == Rounds(s.trace) && s.attempt == Saturated(Rounds(s.trace))
    ensures Sound(config, AfterConnect(sink, s, viaCommand, outcome))
  {
    var greeted := Drop(s, Batch(InHandshake, outcome.handshake));
    RecordKeeps(config, s, Read(Batch(InHandshake, outcome.handshake)));
    match outcome
    case ReplayFailed(_, recovered, error) =>
      RecordKeeps(config, greeted, Read(Batch(InReplay(false, viaCommand), recovered)));
    case Reconnected(_, recovered) =>
      var batch := Batch(InReplay(true, viaCommand), recovered);
      if viaCommand {
        OfferSound(config, sink, greeted, batch);
      } else {
        RecordKeeps(config, greeted, Read(batch));
        HeadReached(config, Drop(greeted, batch).(attempt := 0));
      }
    case _ =>
  }

  lemma RetrySound(config: BrokerReconnectConfig, sink: nat -> bool, s: Listener, c: Choice)
    requires Sound(config, s) && s.pc.Reconnecting?
    ensures Sound(config, Retry(config, sink, s, c))
  {
    var attempt := SaturatingIncrement(s.attempt);
    assert attempt == Saturated(Rounds(s.trace) + 1);
    if !c.stopped && config.AllowsAttempt(attempt) {
      var sleep := Slept(config.DelayMs(attempt));
      var slept := s.(attempt := attempt, trace := s.trace + [sleep]);
      Appended(s.trace, sleep);
      RecordKeeps(config, s, sleep);
      Appended(slept.trace, Connect);
      RecordKeeps(config, slept, Connect);
      if !c.stoppedLater {
        ConnectSound(config, sink, slept.(trace := slept.trace + [Connect]), s.pc.viaCommand, c.connect);
      }
    }
  }

  lemma HeadSound(config: BrokerReconnectConfig, sink: nat -> bool, s: Listener, c: Choice)
    requires Sound(config, s) && s.pc.AtHead?
    ensures Sound(config, Step(config, sink, s, c))
  {
    Appended(s.trace, Head(0));
    RecordKeeps(config, s, Head(0));
  }

  lemma OutageSound(config: BrokerReconnectConfig, s: Listener, batch: Batch, viaCommand: bool, error: string)
    requires Tidy(config, s) && batch.origin.Goes() == Lost && s.attempt == 0
    requires Begins([Read(batch)], viaCommand)
    ensures Sound(config, Drop(s, batch).(pc := Reconnecting(viaCommand, error),
                                         trace := Drop(s, batch).trace + [Outage(viaCommand)]))
  {
    RecordKeeps(config, s, Read(batch));
    Appended(Drop(s, batch).trace, Outage(viaCommand));
    RecordKeeps(config, Drop(s, batch), Outage(viaCommand));
  }

  lemma ServeSound(config: BrokerReconnectConfig, sink: nat -> bool, s: Listener, c: Choice)
    requires Sound(config, s) && s.pc.WithSession?
    ensures Sound(config, Serve(sink, s, c))
  {
    match c.command
    case Served(kind, read, awaited) =>
      var batch := Batch(ForCommand(kind, true, awaited), read);
      if kind.SubscribeCommand? && awaited {
        ReturnKeeps(config, s, batch);
      } else {
        RecordKeeps(config, s, Read(batch));
      }
    case CommandFailed(kind, read, error) =>
      OutageSound(config, s, Batch(ForCommand(kind, false, false), read), true, error);
    case NoCommand =>
      match c.read
      case Messages(events) => OfferSound(config, sink, s.(attempt := 0), Batch(Polling(true), events));
      case ReadFailed(read, error) => OutageSound(config, s, Batch(Polling(false), read), false, error);
  }

  lemma StepSound(config: BrokerReconnectConfig, sink: nat -> bool, s: Listener, c: Choice)
    requires Sound(config, s)
    ensures Sound(config, Step(config, sink, s, c))
  {
    var now := s.(poisoned := s.poisoned || c.poisons);
    match s.pc {
      case AtHead => HeadSound(config, sink, s, c);
      case WithSession => ServeSound(config, sink, now, c);
      case Reconnecting(_, _) => RetrySound(config, sink, now, c);
      case Done(_) =>
    }
  }

  /**
   * Every run of the listener, whatever the environment does, keeps its discipline: the counter
   * is 0 at every head, rounds are paced by the policy, and sink and callers have got what is theirs.
   */
  lemma {:induction false} RunSound(config: BrokerReconnectConfig, sink: nat -> bool, script: seq<Choice>)
    ensures Sound(config, Run(config, sink, script))
  {
    if script == [] {
      assert DropLast(START.trace) == [];
    } else {
      RunSound(config, sink, DropLast(script));
      StepSound(config, sink, Run(config, sink, DropLast(script)), Last(script));
    }
  }

  // ----- the fate of every event -----

  lemma {:induction false} PermittedAt(config: BrokerReconnectConfig, trace: seq<Action>, i: nat)
    requires Paced(config, trace) && i < |trace|
    ensures Paced(config, trace[..i]) && Permitted(config, trace[..i], trace[i])
  {
    if i == |trace| - 1 {
      assert trace[..i] == DropLast(trace);
    } else {
      assert DropLast(trace)[..i] == trace[..i];
      PermittedAt(config, DropLast(trace), i);
    }
  }

  /** The batch whose read began the outage the listener is in. */
  function Culprit(trace: seq<Action>): Option<Batch> {
    if trace == [] || Last(trace).Head? then None
    else if !Last(trace).Outage? then Culprit(DropLast(trace))
    else if DropLast(trace) != [] && Last(DropLast(trace)).Read? then Some(Last(DropLast(trace)).batch)
    else None
  }

  /** An outage was begun by a command that failed or by a poll that failed, and its flag says which. */
  lemma {:induction false} CulpritTells(config: BrokerReconnectConfig, trace: seq<Action>, viaCommand: bool)
    requires Paced(config, trace) && OutageCause(trace) == Some(viaCommand)
    ensures Culprit(trace).Some?
    ensures match Culprit(trace).value.origin
            case ForCommand(_, ok, _) => !ok && viaCommand
            case Polling(ok) => !ok && !viaCommand
            case _ => false
  {
    if !Last(trace).Outage? {
      CulpritTells(config, DropLast(trace), viaCommand);
    }
  }

  /**
   * Which events are lost, exactly, over every run: those of a poll that failed; those read for a
   * command, unless a subscribe was served and its caller still waits; those read while connecting;
   * and those of a replay, unless it went through in an outage that a failed command began.
   */
  lemma EventsLostExactly(config: BrokerReconnectConfig, sink: nat -> bool, script: seq<Choice>, i: nat)
    requires i < |Run(config, sink, script).trace| && Run(config, sink, script).trace[i].Read?
    ensures var trace := Run(config, sink, script).trace;
            trace[i].batch.origin.Goes() == Lost
            <==> match trace[i].batch.origin
                 case Polling(ok) => !ok
                 case ForCommand(kind, ok, awaited) => !(kind.SubscribeCommand? && ok && awaited)
                 case InHandshake => true
                 case InReplay(ok, _) =>
                   !(ok && Culprit(trace[..i]).Some? && Culprit(trace[..i]).value.origin.ForCommand?)
  {
    var trace := Run(config, sink, script).trace;
    RunSound(config, sink, script);
    PermittedAt(config, trace, i);
    if trace[i].batch.origin.InReplay? {
      CulpritTells(config, trace[..i], trace[i].batch.origin.viaCommand);
    }
  }

  /** What one choice makes the listener read after it connected. */
  function ReadOnConnect(viaCommand: bool, outcome: ConnectOutcome): seq<Batch> {
    [Batch(InHandshake, outcome.handshake)]
    + match outcome
      case ReplayFailed(_, recovered, _) => [Batch(InReplay(false, viaCommand), recovered)]
      case Reconnected(_, recovered) => [Batch(InReplay(true, viaCommand), recovered)]
      case _ => []
  }

  function ReadOnServe(c: Choice): Batch {
    match c.command
    case Served(kind, read, awaited) => Batch(ForCommand(kind, true, awaited), read)
    case CommandFailed(kind, read, _) => Batch(ForCommand(kind, false, false), read)
    case NoCommand =>
      match c.read
      case Messages(events) => Batch(Polling(true), events)
      case ReadFailed(read, _) => Batch(Polling(false), read)
  }

  /** The batches the environment yields to the listener at one point of its run. */
  function Yields(config: BrokerReconnectConfig, s: Listener, c: Choice): seq<Batch> {
    match s.pc
    case WithSession => [ReadOnServe(c)]
    case Reconnecting(viaCommand, _) =>
      if c.stopped || c.stoppedLater || !config.AllowsAttempt(SaturatingIncrement(s.attempt)) then []
      else ReadOnConnect(viaCommand, c.connect)
    case _ => []
  }

  function Yielded(config: BrokerReconnectConfig, sink: nat -> bool, script: seq<Choice>): seq<Batch> {
    if script == [] then []
    else Yielded(config, sink, DropLast(script)) + Yields(config, Run(config, sink, DropLast(script)), Last(script))
  }

  lemma HeadAccounts(s: Listener)
    ensures BatchesIn(ToHead(s).trace) == BatchesIn(s.trace)
  {
    Appended(s.trace, Head(s.attempt));
  }

  lemma ResumedAccounts(s: Listener)
    ensures BatchesIn(Resumed(s).trace) == BatchesIn(s.trace)
  {
    HeadAccounts(WithError(s, None).(attempt := 0));
  }

  lemma ReplayAccounts(sink: nat -> bool, s: Listener, batch: Batch)
    ensures BatchesIn(Drop(s, batch).trace) == BatchesIn(s.trace) + [batch]
    ensures BatchesIn(Resumed(Drop(s, batch)).trace) == BatchesIn(s.trace) + [batch]
    ensures BatchesIn(Resumed(Offer(sink, s, batch)).trace) == BatchesIn(s.trace) + [batch]
  {
    Appended(s.trace, Read(batch));
    ResumedAccounts(Drop(s, batch));
    ResumedAccounts(Offer(sink, s, batch));
  }

  lemma ConnectAccounts(sink: nat -> bool, s: Listener, viaCommand: bool, outcome: ConnectOutcome)
    ensures BatchesIn(AfterConnect(sink, s, viaCommand, outcome).trace)
         == BatchesIn(s.trace) + ReadOnConnect(viaCommand, outcome)
  {
    var greeting := Batch(InHandshake, outcome.handshake);
    var greeted := Drop(s, greeting);
    Appended(s.trace, Read(greeting));
    if outcome.ReplayFailed? || outcome.Reconnected? {
      var batch := Batch(InReplay(outcome.Reconnected?, viaCommand), outcome.recovered);
      ReplayAccounts(sink, greeted, batch);
      assert BatchesIn(s.trace) + [greeting] + [batch] == BatchesIn(s.trace) + ([greeting] + [batch]);
    }
  }

  lemma RetryAccounts(config: BrokerReconnectConfig, sink: nat -> bool, s: Listener, c: Choice)
    requires s.pc.Reconnecting?
    ensures BatchesIn(Retry(config, sink, s, c).trace) == BatchesIn(s.trace) + Yields(config, s, c)
  {
    var attempt := SaturatingIncrement(s.attempt);
    assert BatchesIn(s.trace) + [] == BatchesIn(s.trace);
    if !c.stopped && config.AllowsAttempt(attempt) {
      var slept := s.(attempt := attempt, trace := s.trace + [Slept(config.DelayMs(attempt))]);
      Appended(s.trace, Slept(config.DelayMs(attempt)));
      Appended(slept.trace, Connect);
      if !c.stoppedLater {
        ConnectAccounts(sink, slept.(trace := slept.trace + [Connect]), s.pc.viaCommand, c.connect);
      }
    }
  }

  lemma ServeAccounts(config: BrokerReconnectConfig, sink: nat -> bool, s: Listener, c: Choice)
    ensures BatchesIn(Serve(sink, s, c).trace) == BatchesIn(s.trace) + [ReadOnServe(c)]
  {
    var batch := ReadOnServe(c);
    Appended(s.trace, Read(batch));
    Appended(s.trace + [Read(batch)], Outage(true));
    Appended(s.trace + [Read(batch)], Outage(false));
    if c.command.NoCommand? && c.read.Messages? {
      HeadAccounts(Offer(sink, s.(attempt := 0), batch));
    }
  }

  lemma StepAccounts(config: BrokerReconnectConfig, sink: nat -> bool, s: Listener, c: Choice)
    ensures BatchesIn(Step(config, sink, s, c).trace) == BatchesIn(s.trace) + Yields(config, s, c)
  {
    var now := s.(poisoned := s.poisoned || c.poisons);
    assert BatchesIn(s.trace) + [] == BatchesIn(s.trace);
    match s.pc
    case Done(_) =>
    case WithSession => ServeAccounts(config, sink, now, c);
    case Reconnecting(_, _) => RetryAccounts(config, sink, now, c);
    case AtHead => HeadAccounts(now);
  }

  lemma {:induction false} YieldedAccounts(config: BrokerReconnectConfig, sink: nat -> bool, script: seq<Choice>)
    ensures BatchesIn(Run(config, sink, script).trace) == Yielded(config, sink, script)
  {
    if script == [] {
      assert DropLast(START.trace) == [];
    } else {
      YieldedAccounts(config, sink, DropLast(script));
      StepAccounts(config, sink, Run(config, sink, DropLast(script)), Last(script));
    }
  }

  function EventsOf(batches: seq<Batch>): seq<Event> {
    if batches == [] then [] else EventsOf(DropLast(batches)) + Last(batches).events
  }

  lemma {:induction false} OneDestination(batches: seq<Batch>)
    ensures multiset(EventsOf(batches))
         == multiset(EventsTo(ToSink, batches)) + multiset(EventsTo(ToCaller, batches)) + multiset(EventsTo(Lost, batches))
  {
    if batches != [] {
      OneDestination(DropLast(batches));
    }
  }

  /** The events offered to the sink and not delivered. */
  function Refused(s: Listener): seq<Event>
    requires |s.delivered| <= |Bound(ToSink, s.trace)|
  {
    Bound(ToSink, s.trace)[|s.delivered|..]
  }

  lemma SoundDelivers(config: BrokerReconnectConfig, s: Listener)
    requires Sound(config, s)
    ensures |s.delivered| <= |Bound(ToSink, s.trace)|
    ensures Bound(ToSink, s.trace) == s.delivered + Refused(s) && Bound(ToCaller, s.trace) == s.returned
    ensures Refused(s) != [] <==> s.pc == Done(SinkRejected)
  {
  }

  /**
   * Over every run the sink has what was bound for it, in order, up to the event whose refusal ended
   * the run, and the callers of subscribes have all that was bound for them.
   */
  lemma EventsDelivered(config: BrokerReconnectConfig, sink: nat -> bool, script: seq<Choice>)
    ensures var s, read := Run(config, sink, script), Yielded(config, sink, script);
            && |s.delivered| <= |Bound(ToSink, s.trace)|
            && EventsTo(ToSink, read) == s.delivered + Refused(s)
            && EventsTo(ToCaller, read) == s.returned
            && (Refused(s) != [] <==> s.pc == Done(SinkRejected))
  {
    var s := Run(config, sink, script);
    RunSound(config, sink, script);
    YieldedAccounts(config, sink, script);
    SoundDelivers(config, s);
  }

  /** So each event the environment yields is delivered, refused, returned to a caller or lost, exactly once. */
  lemma EventsAccounted(config: BrokerReconnectConfig, sink: nat -> bool, script: seq<Choice>)
    ensures var s, read := Run(config, sink, script), Yielded(config, sink, script);
            && |s.delivered| <= |Bound(ToSink, s.trace)|
            && multiset(EventsOf(read))
               == multiset(s.delivered) + multiset(Refused(s)) + multiset(s.returned) + multiset(EventsTo(Lost, read))
  {
    EventsDelivered(config, sink, script);
    OneDestination(Yielded(config, sink, script));
    var s := Run(config, sink, script);
    assert multiset(s.delivered + Refused(s)) == multiset(s.delivered) + multiset(Refused(s));
  }

  // ----- what a replay really reads -----

  /** The reconnect that a replay of this recovery state over these exchanges makes. */
  function Reconnection(handshake: seq<Event>, config: BrokerReconnectConfig, recovery: MqttRecovery.Recovery,
                        order: seq<string>, net: nat -> MqttRecovery.Exchange): ConnectOutcome
  {
    match MqttRecovery.Replayed(config, recovery, order, net, 0).result
    case Ok(events) => Reconnected(handshake, events)
    case Err(error) => ReplayFailed(handshake, MqttRecovery.ReplayReads(config, recovery, order, net, 0), error)
  }

  /**
   * The fate of what a replay reads, exactly: all of it is bound for the sink when a failed command
   * began the outage and every exchange of the replay succeeds, and all of it is lost otherwise, be it
   * that a failed read began the outage or that the replay broke off at its first failing exchange.
   */
  lemma ReplayedEventsFate(handshake: seq<Event>, config: BrokerReconnectConfig, recovery: MqttRecovery.Recovery,
                           order: seq<string>, net: nat -> MqttRecovery.Exchange, viaCommand: bool)
    ensures var size := MqttRecovery.ReplaySize(config, recovery, order);
            var batch := Last(ReadOnConnect(viaCommand, Reconnection(handshake, config, recovery, order, net)));
            && batch.events == MqttRecovery.EventsRead(net, 0, MqttRecovery.Attempts(net, 0, size))
            && (batch.origin.Goes() == ToSink <==> viaCommand && MqttRecovery.AllSucceed(net, 0, size))
            && (batch.origin.Goes() == Lost <==> !viaCommand || !MqttRecovery.AllSucceed(net, 0, size))
  {
    MqttRecovery.ReplayAnswers(config, recovery, order, net, 0);
  }

  /**
   * Such a loss in an outage that a failed command began: the first exchange of the replay reads an
   * event and the second one fails to send.
   */
  lemma FailedReplayLosesEvent(config: BrokerReconnectConfig, recovery: MqttRecovery.Recovery, event: Event,
                               net: nat -> MqttRecovery.Exchange)
    requires recovery.desired == map[] && |recovery.queue| == 2
    requires net(0) == MqttRecovery.Sent(MqttRecovery.Arrived([MqttRecovery.EventMessage(event)]))
    requires net(1).SendFailed?
    ensures ReadOnConnect(true, Reconnection([], config, recovery, [], net))
         == [Batch(InHandshake, []), Batch(InReplay(false, true), [event])]
  {
    ReplayedEventsFate([], config, recovery, [], net, true);
    assert MqttRecovery.Wishes(config, recovery, []) == [];
    assert MqttRecovery.FirstFailure(net, 0, 1) by {
      assert MqttRecovery.Nth(net, 0, 1) == net(1) && MqttRecovery.Nth(net, 0, 0) == net(0);
    }
    MqttRecovery.AttemptsExactly(net, 0, 2);
    var messages := [MqttRecovery.EventMessage(event)];
    assert messages[1..] == [] && MqttRecovery.EventsOf(messages) == [event];
    assert MqttRecovery.EventsRead(net, 0, 1) == [event];
    assert MqttRecovery.EventsRead(net, 0, 2) == [event];
  }

  /**
   * How a listener ends: its status is failed exactly when a sink rejection, exhausted attempts
   * or a lock failure (of the session mutex, or of the error mutex itself) ended it.
   */
  lemma StatusByCause(config: BrokerReconnectConfig, sink: nat -> bool, script: seq<Choice>)
    ensures var s := Closed(Run(config, sink, script));
            Failed(s) <==> s.pc.cause != StopRequested || s.poisoned
  {
    RunSound(config, sink, script);
  }

  /** What the listener last failed with, before this choice and by it. */
  function FailureIn(pc: Pc, c: Choice): string {
    match pc
    case WithSession =>
      (match c.command
       case CommandFailed(_, _, error) => error
       case _ => match c.read case ReadFailed(_, error) => error case Messages(_) => "")
    case _ =>
      match c.connect
      case ConnectFailed(_, error) => error
      case ReplayFailed(_, _, error) => error
      case LockFailedAfterConnect(_) => "failed to lock MQTT session after reconnect"
      case _ => "MQTT session missing after reconnect"
  }

  /** A reconnecting listener remembers its latest failure: the command's, the poll's, the connect's or the replay's. */
  lemma LatestFailure(config: BrokerReconnectConfig, sink: nat -> bool, script: seq<Choice>)
    requires Run(config, sink, script).pc.Reconnecting?
    ensures script != []
    ensures Run(config, sink, script).pc.error == FailureIn(Run(config, sink, DropLast(script)).pc, Last(script))
  {
  }

  /**
   * The error a listener leaves behind, exactly, unless the error mutex is poisoned: none after a stop,
   * fixed texts for a refusing sink and an unlockable session, and its latest failure when the attempts
   * are used up.
   */
  lemma ErrorLeftBehind(config: BrokerReconnectConfig, sink: nat -> bool, script: seq<Choice>, c: Choice)
    requires !Run(config, sink, script).pc.Done?
    requires Run(config, sink, script + [c]).pc.Done? && !Run(config, sink, script + [c]).poisoned
    ensures var before, after := Run(config, sink, script), Run(config, sink, script + [c]);
            after.error ==
              match after.pc.cause
              case StopRequested => None
              case SinkRejected => Some("failed to forward MQTT event to sink")
              case SessionLockFailed => Some("failed to lock MQTT session while listening")
              case AttemptsExhausted => if before.pc.Reconnecting? then Some(before.pc.error) else None
    ensures Run(config, sink, script + [c]).pc.cause == AttemptsExhausted ==> Run(config, sink, script).pc.Reconnecting?
  {
    RunSound(config, sink, script);
    RunOneMore(config, sink, script, c);
  }

  /**
   * A stop is honoured at the next loop head, and while reconnecting before the next round and after its
   * sleep: nothing is read, connected or delivered any more.
   */
  lemma StopHonoured(config: BrokerReconnectConfig, sink: nat -> bool, script: seq<Choice>, c: Choice)
    requires var pc := Run(config, sink, script).pc; pc.AtHead? || pc.Reconnecting?
    requires c.stopped || (c.stoppedLater && Run(config, sink, script).pc.Reconnecting?)
    ensures var before, after := Run(config, sink, script), Run(config, sink, script + [c]);
            && after.pc == Done(StopRequested)
            && after.delivered == before.delivered && after.returned == before.returned
            && (after.trace == before.trace || (after.trace == before.trace + [Last(after.trace)] && Last(after.trace).Slept?))
  {
    RunOneMore(config, sink, script, c);
  }

  /** Once its error mutex is poisoned a listener's recorded error changes no more. */
  lemma PoisonedKeepsError(config: BrokerReconnectConfig, sink: nat -> bool, script: seq<Choice>, c: Choice)
    requires Run(config, sink, script + [c]).poisoned
    ensures Run(config, sink, script + [c]).error == Run(config, sink, script).error
  {
    RunOneMore(config, sink, script, c);
  }

  /** At a loop head the listener serves a session it could take, looks again when there is none, and ends if it cannot look. */
  lemma HeadTakesSession(config: BrokerReconnectConfig, sink: nat -> bool, script: seq<Choice>, c: Choice)
    requires Run(config, sink, script).pc.AtHead? && !c.stopped
    ensures Run(config, sink, script + [c]).pc ==
            match c.slot
            case SlotTaken => WithSession
            case SlotEmpty => AtHead
            case SlotLockFailed => Done(SessionLockFailed)
  {
    RunOneMore(config, sink, script, c);
  }

  /**
   * With a session it serves commands while there are any, and only then polls; a failed command or poll
   * makes it reconnect, and a poll gives the session back for the next head, unless the sink refuses.
   */
  lemma CommandsBeforePolls(config: BrokerReconnectConfig, sink: nat -> bool, script: seq<Choice>, c: Choice)
    requires Run(config, sink, script).pc.WithSession?
    ensures var after := Run(config, sink, script + [c]);
            match c.command
            case Served(_, _, _) => after.pc == WithSession
            case CommandFailed(_, _, error) => after.pc == Reconnecting(true, error)
            case NoCommand =>
              match c.read
              case ReadFailed(_, error) => after.pc == Reconnecting(false, error)
              case Messages(events) => after.pc in {AtHead, Done(SinkRejected)}
  {
    RunSound(config, sink, script);
    RunOneMore(config, sink, script, c);
  }

  /** A round that may connect resumes only when connect and replay both succeed, and otherwise goes on to the next. */
  lemma ResumesExactly(config: BrokerReconnectConfig, sink: nat -> bool, script: seq<Choice>, c: Choice)
    requires Run(config, sink, script).pc.Reconnecting? && !c.stopped && !c.stoppedLater
    requires config.AllowsAttempt(SaturatingIncrement(Run(config, sink, script).attempt))
    ensures var pc := Run(config, sink, script + [c]).pc;
            if c.connect.Reconnected? then pc in {AtHead, Done(SinkRejected)} else pc.Reconnecting?
  {
    RunOneMore(config, sink, script, c);
  }

  /** Without a budget an enabled listener never gives up. */
  lemma UnlimitedNeverExhausts(config: BrokerReconnectConfig, sink: nat -> bool, script: seq<Choice>)
    requires config.enabled && config.maxAttempts.None?
    ensures Run(config, sink, script).pc != Done(AttemptsExhausted)
  {
    RunSound(config, sink, script);
  }

  /**
   * One outage: below the saturation point of the counter no run connects more often than
   * `max_attempts`, and giving up means exactly that many connects were tried.
   */
  lemma OutageBudget(config: BrokerReconnectConfig, sink: nat -> bool, script: seq<Choice>)
    requires config.enabled && config.maxAttempts.Some? && config.maxAttempts.value < UINT32_MAX
    ensures var s := Run(config, sink, script);
            && Connects(s.trace) <= Rounds(s.trace) <= config.maxAttempts.value
            && (s.pc == Done(AttemptsExhausted) ==> Connects(s.trace) == config.maxAttempts.value)
  {
    RunSound(config, sink, script);
    PacedBudget(config, Run(config, sink, script).trace);
  }

  lemma {:induction false} PacedBudget(config: BrokerReconnectConfig, trace: seq<Action>)
    requires config.maxAttempts.Some? && config.maxAttempts.value < UINT32_MAX && Paced(config, trace)
    ensures Rounds(trace) <= config.maxAttempts.value
  {
    if trace != [] {
      PacedBudget(config, DropLast(trace));
    }
  }

  /** A disabled policy never connects. */
  lemma {:induction false} DisabledNeverConnects(config: BrokerReconnectConfig, trace: seq<Action>)
    requires !config.enabled && Paced(config, trace)
    ensures Rounds(trace) == 0
  {
    if trace != [] {
      DisabledNeverConnects(config, DropLast(trace));
    }
  }

  /** An environment that resets the session and then never gives it back, for `n` rounds. */
  function Refusals(n: nat): seq<Choice> {
    if n == 0 then [Quiet(Messages([])), Quiet(ReadFailed([], "reset"))]
    else Refusals(n - 1) + [Quiet(Messages([]))]
  }

  function Quiet(read: ReadOutcome): Choice {
    Choice(false, false, false, SlotTaken, NoCommand, read, SessionMissing([]))
  }

  lemma RunOneMore(config: BrokerReconnectConfig, sink: nat -> bool, script: seq<Choice>, c: Choice)
    ensures Run(config, sink, script + [c]) == Step(config, sink, Run(config, sink, script), c)
  {
    assert DropLast(script + [c]) == script;
  }

  lemma ResetBegins(config: BrokerReconnectConfig, sink: nat -> bool)
    ensures Run(config, sink, Refusals(0)) ==
            START.(pc := Reconnecting(false, "reset"),
                   trace := START.trace + [Read(Batch(Polling(false), []))] + [Outage(false)])
  {
    var first, second := Quiet(Messages([])), Quiet(ReadFailed([], "reset"));
    RunOneMore(config, sink, [], first);
    RunOneMore(config, sink, [first], second);
    assert [] + [first] == [first] && [first] + [second] == Refusals(0);
  }

  lemma RefusedRound(config: BrokerReconnectConfig, sink: nat -> bool, s: Listener)
    requires config.enabled && config.maxAttempts == Some(UINT32_MAX) && s.pc.Reconnecting?
    ensures var after := Step(config, sink, s, Quiet(Messages([])));
            after.pc.Reconnecting? && Connects(after.trace) == Connects(s.trace) + 1
            && Rounds(after.trace) == Rounds(s.trace) + 1
  {
    var slept := Slept(config.DelayMs(SaturatingIncrement(s.attempt)));
    Appended(s.trace, slept);
    Appended(s.trace + [slept], Connect);
    Appended(s.trace + [slept] + [Connect], Read(Batch(InHandshake, [])));
  }

  /**
   * At the largest budget a `u32` can name the counter saturates and stops counting: the listener
   * then retries without bound, so the budget holds for all outages exactly below that value.
   */
  lemma {:induction false} SaturatedBudgetNeverEnds(config: BrokerReconnectConfig, sink: nat -> bool, n: nat)
    requires config.enabled && config.maxAttempts == Some(UINT32_MAX)
    ensures var s := Run(config, sink, Refusals(n));
            s.pc.Reconnecting? && Connects(s.trace) == n == Rounds(s.trace)
  {
    if n == 0 {
      ResetBegins(config, sink);
      Appended(START.trace + [Read(Batch(Polling(false), []))], Outage(false));
    } else {
      SaturatedBudgetNeverEnds(config, sink, n - 1);
      RunOneMore(config, sink, Refusals(n - 1), Quiet(Messages([])));
      RefusedRound(config, sink, Run(config, sink, Refusals(n - 1)));
    }
  }
}
