/**
 * Who owns the Modbus sockets and serial ports: the lean transports, the full-stack transport that
 * keeps one session in its slot, and the retry loop above them. `ExecuteStep`, `Discard` and `Run` say
 * what calls do to the slot and to a history of everything done to a handle; the methods of
 * `ModbusDriver` take the session out of the slot and put it back as the program does.
 */
module ModbusSession {
  import opened Wrappers
  import opened Widths
  import opened Backoff

  datatype Kind = Tcp | RtuOverTcp | Rtu | Ascii | Udp

  /** The two lean transports that keep a session: TCP sockets and serial ports. */
  datatype Family = Socket | Port

  datatype Endpoint = Endpoint(kind: Kind, persistent: bool)

  type Handle = nat

  datatype Session = Session(family: Family, handle: Handle)

  /** What the operating system answers in one exchange; a string is the text of a failure. */
  datatype Io = Io(
    open: Option<string>,
    setReadTimeout: Option<string>,
    setWriteTimeout: Option<string>,
    write: Option<string>,
    flush: Option<string>,
    read: Result<seq<byte>, string>,
    decoded: Result<seq<byte>, string>)

  datatype Operation = Connect | SetTimeout | Bind | OpenPort | Send | Receive | Write | Flush | Read

  function Verb(op: Operation): string {
    match op
    case Connect => "failed to connect "
    case SetTimeout => "failed to set "
    case Bind => "failed to bind "
    case OpenPort => "failed to open "
    case Send => "failed to send "
    case Receive => "failed to receive "
    case Write => "failed to write "
    case Flush => "failed to flush "
    case Read => "failed to read "
  }

  function Failure(op: Operation, detail: string): string {
    Verb(op) + detail
  }

  const DECODE_FAILURE: string := "rmodbus error: "

  function FamilyOf(kind: Kind): Option<Family> {
    match kind
    case Tcp | RtuOverTcp => Some(Socket)
    case Rtu | Ascii => Some(Port)
    case Udp => None
  }

  /** The failure to connect a socket or open a port, if any. */
  function OpenError(family: Family, io: Io): Option<string> {
    if io.open.None? then None
    else Some(Failure(if family.Socket? then Connect else OpenPort, io.open.value))
  }

  /** The failure to set the timeouts of a socket just connected, if any. */
  function TimeoutError(family: Family, io: Io): Option<string> {
    if family.Port? then None
    else if io.setReadTimeout.Some? then Some(Failure(SetTimeout, io.setReadTimeout.value))
    else if io.setWriteTimeout.Some? then Some(Failure(SetTimeout, io.setWriteTimeout.value))
    else None
  }

  /** Write, flush, read one response and, for ASCII, decode it. */
  function Conversation(kind: Kind, io: Io): Result<seq<byte>, string> {
    if io.write.Some? then Err(Failure(Write, io.write.value))
    else if io.flush.Some? then Err(Failure(Flush, io.flush.value))
    else if io.read.Err? then Err(Failure(Read, io.read.error))
    else if !kind.Ascii? then Ok(io.read.value)
    else if io.decoded.Err? then Err(DECODE_FAILURE + io.decoded.error)
    else Ok(io.decoded.value)
  }

  function Datagram(io: Io): Result<seq<byte>, string> {
    if io.open.Some? then Err(Failure(Bind, io.open.value))
    else if io.setReadTimeout.Some? then Err(Failure(SetTimeout, io.setReadTimeout.value))
    else if io.write.Some? then Err(Failure(Send, io.write.value))
    else if io.read.Err? then Err(Failure(Receive, io.read.error))
    else Ok(io.read.value)
  }

  /** `Closed` is a close call; `Dropped` is a handle that goes out of scope without one. */
  datatype Event =
    | Opened(handle: Handle)
    | Exchanged(handle: Handle)
    | Closed(handle: Handle)
    | Dropped(handle: Handle)
    | DatagramExchanged
    | Slept(delay: Duration)

  /** The session slot, the number of handles opened so far and everything that has happened. */
  datatype State = State(slot: Option<Session>, openings: nat, trace: seq<Event>) {
    function Record(event: Event): State {
      this.(trace := trace + [event])
    }
  }

  const START: State := State(None, 0, [])

  function Discard(s: State): State {
    if s.slot.Some? then s.(slot := None).Record(Closed(s.slot.value.handle)) else s
  }

  /** The slot's session goes out of scope without a close. */
  function Abandon(s: State): State
    requires s.slot.Some?
  {
    s.(slot := None).Record(Dropped(s.slot.value.handle))
  }

  predicate Reusable(s: State, e: Endpoint) {
    e.persistent && s.slot.Some? && FamilyOf(e.kind) == Some(s.slot.value.family)
  }

  function Exchange(s: State, e: Endpoint, io: Io): (State, Result<seq<byte>, string>)
    requires s.slot.Some?
  {
    var handle := s.slot.value.handle;
    var used := s.Record(Exchanged(handle));
    var result := Conversation(e.kind, io);
    if result.Err? then (Discard(used), result)
    else if e.persistent then (used, result)
    else (Abandon(used), result)
  }

  /** The slot's session is closed and a new handle takes its place. */
  function Opening(s: State, family: Family): State {
    State(Some(Session(family, s.openings)), s.openings + 1, Discard(s).trace + [Opened(s.openings)])
  }

  /** One call of the full-stack transport. */
  function ExecuteStep(s: State, e: Endpoint, io: Io): (State, Result<seq<byte>, string>) {
    match FamilyOf(e.kind)
    case None => (s.Record(DatagramExchanged), Datagram(io))
    case Some(family) =>
      if Reusable(s, e) then
        Exchange(s, e, io)
      else if OpenError(family, io).Some? then
        (Discard(s), Err(OpenError(family, io).value))
      else if TimeoutError(family, io).Some? then
        (Abandon(Opening(s, family)), Err(TimeoutError(family, io).value))
      else
        Exchange(Opening(s, family), e, io)
  }

  datatype Call = Executed(endpoint: Endpoint, io: Io) | Waited(delay: Duration) | Stopped

  function Apply(s: State, call: Call): State {
    match call
    case Executed(e, io) => ExecuteStep(s, e, io).0
    case Waited(delay) => s.Record(Slept(delay))
    case Stopped => Discard(s)
  }

  function Run(s: State, calls: seq<Call>): State {
    if calls == [] then s else Apply(Run(s, DropLast(calls)), Last(calls))
  }

  lemma {:induction false} RunConcat(s: State, first: seq<Call>, second: seq<Call>)
    ensures Run(Run(s, first), second) == Run(s, first + second)
    decreases |second|
  {
    if second == [] {
      assert first + second == first;
    } else {
      RunConcat(s, first, DropLast(second));
      assert DropLast(first + second) == first + DropLast(second);
    }
  }

  /** The handles that are open after a history. */
  function Live(trace: seq<Event>): set<Handle> {
    if trace == [] then {} else
    match Last(trace)
    case Opened(h) => Live(DropLast(trace)) + {h}
    case Closed(h) => Live(DropLast(trace)) - {h}
    case Dropped(h) => Live(DropLast(trace)) - {h}
    case _ => Live(DropLast(trace))
  }

  function Opens(trace: seq<Event>): nat {
    if trace == [] then 0 else Opens(DropLast(trace)) + (if Last(trace).Opened? then 1 else 0)
  }

  function Releases(trace: seq<Event>): nat {
    if trace == [] then 0
    else Releases(DropLast(trace)) + (if Last(trace).Closed? || Last(trace).Dropped? then 1 else 0)
  }

  function Drops(trace: seq<Event>): nat {
    if trace == [] then 0 else Drops(DropLast(trace)) + (if Last(trace).Dropped? then 1 else 0)
  }

  /** Handles are new when opened, opened only when none is open, and used and released only while open. */
  predicate Disciplined(trace: seq<Event>) {
    trace == [] ||
    var before := DropLast(trace);
    && Disciplined(before)
    && match Last(trace)
       case Opened(h) => h == Opens(before) && Live(before) == {}
       case Exchanged(h) => h in Live(before)
       case Closed(h) => h in Live(before)
       case Dropped(h) => h in Live(before)
       case _ => true
  }

  function Held(slot: Option<Session>): set<Handle> {
    if slot.Some? then {slot.value.handle} else {}
  }

  /** The open handles are exactly the one in the slot, and every handle was treated properly. */
  predicate Sound(s: State) {
    && Disciplined(s.trace)
    && Live(s.trace) == Held(s.slot)
    && Opens(s.trace) == s.openings
  }

  lemma Recorded(s: State, event: Event)
    ensures var trace := s.Record(event).trace; DropLast(trace) == s.trace && Last(trace) == event
  {
  }

  lemma DiscardSound(s: State)
    requires Sound(s)
    ensures Sound(Discard(s)) && Discard(s).slot.None?
  {
    if s.slot.Some? {
      Recorded(s, Closed(s.slot.value.handle));
    }
  }

  lemma ExchangeSound(s: State, e: Endpoint, io: Io)
    requires Sound(s) && s.slot.Some?
    ensures Sound(Exchange(s, e, io).0)
  {
    var handle := s.slot.value.handle;
    var used := s.Record(Exchanged(handle));
    Recorded(s, Exchanged(handle));
    DiscardSound(used);
    Recorded(used, Dropped(handle));
  }

  lemma OpeningSound(s: State, family: Family)
    requires Sound(s)
    ensures Sound(Opening(s, family))
  {
    DiscardSound(s);
    Recorded(Discard(s), Opened(s.openings));
  }

  lemma FreshSound(s: State, e: Endpoint, io: Io, family: Family)
    requires Sound(s)
    ensures Sound(Discard(s)) && Sound(Abandon(Opening(s, family))) && Sound(Exchange(Opening(s, family), e, io).0)
  {
    DiscardSound(s);
    OpeningSound(s, family);
    Recorded(Opening(s, family), Dropped(s.openings));
    ExchangeSound(Opening(s, family), e, io);
  }

  lemma ExecuteSound(s: State, e: Endpoint, io: Io)
    requires Sound(s)
    ensures Sound(ExecuteStep(s, e, io).0)
  {
    match FamilyOf(e.kind)
    case None => Recorded(s, DatagramExchanged);
    case Some(family) =>
      if Reusable(s, e) {
        ExchangeSound(s, e, io);
      } else {
        FreshSound(s, e, io, family);
      }
  }

  lemma ApplySound(s: State, call: Call)
    requires Sound(s)
    ensures Sound(Apply(s, call))
  {
    match call
    case Executed(e, io) => ExecuteSound(s, e, io);
    case Waited(delay) => Recorded(s, Slept(delay));
    case Stopped => DiscardSound(s);
  }

  /** Over every run of calls, waits and stops, on any endpoints and whatever the I/O does. */
  lemma {:induction false} RunOwned(calls: seq<Call>)
    ensures Sound(Run(START, calls))
  {
    if calls != [] {
      RunOwned(DropLast(calls));
      ApplySound(Run(START, DropLast(calls)), Last(calls));
    }
  }

  lemma {:induction false} ReleasesBalance(trace: seq<Event>)
    requires Disciplined(trace)
    ensures Opens(trace) == Releases(trace) + |Live(trace)|
    ensures forall h <- Live(trace) :: h < Opens(trace)
  {
    if trace != [] {
      ReleasesBalance(DropLast(trace));
    }
  }

  /** Every handle ever opened was released once, except the one in the slot. */
  lemma HandlesConserved(calls: seq<Call>)
    ensures var s := Run(START, calls);
            s.openings == Releases(s.trace) + (if s.slot.Some? then 1 else 0)
  {
    RunOwned(calls);
    ReleasesBalance(Run(START, calls).trace);
  }

  /** After stop nothing is open, whatever happened before. */
  lemma StopReleasesEverything(calls: seq<Call>)
    ensures var s := Run(START, calls + [Stopped]);
            s.slot.None? && Live(s.trace) == {} && Releases(s.trace) == s.openings
  {
    RunOwned(calls + [Stopped]);
    HandlesConserved(calls + [Stopped]);
    RunConcat(START, calls, [Stopped]);
  }

  /** After a TCP or serial call the slot is full exactly when it succeeded and the endpoint is persistent. */
  lemma SlotAfterExecute(s: State, e: Endpoint, io: Io)
    ensures var (after, result) := ExecuteStep(s, e, io);
            if e.kind.Udp? then
              after.slot == s.slot
            else if result.Ok? && e.persistent then
              after.slot == Some(Session(if e.kind.Tcp? || e.kind.RtuOverTcp? then Socket else Port,
                                         if Reuses(s, e) then s.slot.value.handle else s.openings))
            else
              after.slot == None
  {
  }

  // ----- what one call does and answers, from its endpoint and its I/O -----

  /** A persistent endpoint finds the session of its own family in the slot. */
  predicate Reuses(s: State, e: Endpoint) {
    && e.persistent && s.slot.Some?
    && match e.kind
       case Tcp | RtuOverTcp => s.slot.value.family.Socket?
       case Rtu | Ascii => s.slot.value.family.Port?
       case Udp => false
  }

  function Text(prefix: string, failure: Option<string>): Option<string> {
    if failure.Some? then Some(prefix + failure.value) else None
  }

  function ErrorOf<T>(r: Result<T, string>): Option<string> {
    if r.Err? then Some(r.error) else None
  }

  /** The failure to get a session ready: connecting a socket and setting its timeouts, or opening a port. */
  function Readying(kind: Kind, io: Io): Option<string> {
    match kind
    case Tcp | RtuOverTcp =>
      OrElse(Text("failed to connect ", io.open),
             OrElse(Text("failed to set ", io.setReadTimeout), Text("failed to set ", io.setWriteTimeout)))
    case Rtu | Ascii => Text("failed to open ", io.open)
    case Udp => OrElse(Text("failed to bind ", io.open), Text("failed to set ", io.setReadTimeout))
  }

  /** The failure of the exchange itself: write, flush and read, and for ASCII the decoding. */
  function Exchanging(kind: Kind, io: Io): Option<string> {
    if kind.Udp? then OrElse(Text("failed to send ", io.write), Text("failed to receive ", ErrorOf(io.read)))
    else
      OrElse(Text("failed to write ", io.write),
             OrElse(Text("failed to flush ", io.flush),
                    OrElse(Text("failed to read ", ErrorOf(io.read)),
                           if kind.Ascii? then Text("rmodbus error: ", ErrorOf(io.decoded)) else None)))
  }

  /** The first failure, else the frame that was read, which ASCII decodes. */
  function Answer(kind: Kind, io: Io, reused: bool): Result<seq<byte>, string> {
    var failure := if reused then Exchanging(kind, io) else OrElse(Readying(kind, io), Exchanging(kind, io));
    if failure.Some? then Err(failure.value) else if kind.Ascii? then io.decoded else Ok(io.read.GetOr([]))
  }

  /** A call answers its first failure, in the order of its operations, else the frame it read. */
  lemma AnswersFirstFailure(s: State, e: Endpoint, io: Io)
    ensures ExecuteStep(s, e, io).1 == Answer(e.kind, io, Reuses(s, e))
  {
  }

  /**
   * Everything a TCP or serial call does to handles: a session it cannot reuse is closed first, a new
   * one is opened if that works and dropped again if it cannot be made ready, and the one it exchanges
   * over is kept by success on a persistent endpoint, dropped by other successes and closed by failures.
   */
  lemma HandlesTouched(s: State, e: Endpoint, io: Io)
    requires !e.kind.Udp?
    ensures var (after, answer) := ExecuteStep(s, e, io);
            var reused := Reuses(s, e);
            var handle := if reused then s.slot.value.handle else s.openings;
            var opens := !reused && io.open.None?;
            var exchanged := reused || Readying(e.kind, io).None?;
            && after.openings == s.openings + (if opens then 1 else 0)
            && after.trace == s.trace + (if !reused && s.slot.Some? then [Closed(s.slot.value.handle)] else [])
                 + (if opens then [Opened(handle)] else [])
                 + (if exchanged then [Exchanged(handle)] else if opens then [Dropped(handle)] else [])
                 + (if !exchanged || (answer.Ok? && e.persistent) then []
                    else if answer.Ok? then [Dropped(handle)] else [Closed(handle)])
  {
  }

  /** A datagram call touches neither the slot nor any kept handle. */
  lemma DatagramTouchesNothing(s: State, e: Endpoint, io: Io)
    requires e.kind.Udp?
    ensures var after := ExecuteStep(s, e, io).0;
            after.slot == s.slot && after.openings == s.openings && after.trace == s.trace + [DatagramExchanged]
  {
  }

  lemma DropsAppend(trace: seq<Event>, more: seq<Event>)
    requires |more| <= 1
    ensures Drops(trace + more) == Drops(trace) + (if more != [] && more[0].Dropped? then 1 else 0)
  {
    if more == [] {
      assert trace + more == trace;
    } else {
      assert DropLast(trace + more) == trace && Last(trace + more) == more[0];
    }
  }

  lemma DropsOf(trace: seq<Event>, stale: seq<Event>, begun: seq<Event>, use: seq<Event>, end: seq<Event>)
    requires |stale| <= 1 && |begun| <= 1 && |use| <= 1 && |end| <= 1
    requires stale == [] || stale[0].Closed?
    requires begun == [] || begun[0].Opened?
    ensures Drops(trace + stale + begun + use + end) == Drops(trace)
              + (if use != [] && use[0].Dropped? then 1 else 0) + (if end != [] && end[0].Dropped? then 1 else 0)
  {
    DropsAppend(trace, stale);
    DropsAppend(trace + stale, begun);
    DropsAppend(trace + stale + begun, use);
    DropsAppend(trace + stale + begun + use, end);
  }

  /** The call connects a socket and then cannot set its timeouts. */
  predicate TimeoutUnset(s: State, e: Endpoint, io: Io) {
    && (e.kind.Tcp? || e.kind.RtuOverTcp?) && !Reuses(s, e)
    && io.open.None? && (io.setReadTimeout.Some? || io.setWriteTimeout.Some?)
  }

  /**
   * A TCP or serial call lets a socket or port go out of scope without a close exactly when it
   * succeeds on an endpoint that is not persistent or cannot set the timeouts of a socket it
   * connected; every other release is a close.
   */
  lemma DroppedExactly(s: State, e: Endpoint, io: Io)
    ensures var (after, result) := ExecuteStep(s, e, io);
            Drops(after.trace) == Drops(s.trace)
              + (if !e.kind.Udp? && ((result.Ok? && !e.persistent) || TimeoutUnset(s, e, io)) then 1 else 0)
  {
    if e.kind.Udp? {
      DatagramTouchesNothing(s, e, io);
      DropsAppend(s.trace, [DatagramExchanged]);
    } else {
      HandlesTouched(s, e, io);
      AnswersFirstFailure(s, e, io);
      var answer, reused := ExecuteStep(s, e, io).1, Reuses(s, e);
      var handle := if reused then s.slot.value.handle else s.openings;
      var opens := !reused && io.open.None?;
      var exchanged := reused || Readying(e.kind, io).None?;
      DropsOf(s.trace, if !reused && s.slot.Some? then [Closed(s.slot.value.handle)] else [],
              if opens then [Opened(handle)] else [],
              if exchanged then [Exchanged(handle)] else if opens then [Dropped(handle)] else [],
              if !exchanged || (answer.Ok? && e.persistent) then []
              else if answer.Ok? then [Dropped(handle)] else [Closed(handle)]);
    }
  }

  const RETRYABLE: set<Operation> := {Connect, Bind, OpenPort, Send, Write, Flush, Read}

  /** The message starts as one of the retryable operations' messages do. */
  predicate IsRetryable(error: string) {
    exists op <- RETRYABLE :: Verb(op) <= error
  }

  lemma VerbsDiffer(a: Operation, b: Operation, detail: string)
    requires a != b
    ensures !(Verb(a) <= Failure(b, detail))
  {
    assert Verb(b) <= Failure(b, detail);
    assert Verb(a)[10] != Verb(b)[10] || Verb(a)[12] != Verb(b)[12];
  }

  /**
   * The prefix test on the message tells the failed operation: everything is retried but setting a
   * timeout, receiving a datagram and decoding an ASCII frame.
   */
  lemma RetryableByOperation(op: Operation, detail: string)
    ensures IsRetryable(Failure(op, detail)) <==> op in RETRYABLE
    ensures !IsRetryable(DECODE_FAILURE + detail)
  {
    forall other: Operation | other != op
      ensures !(Verb(other) <= Failure(op, detail))
    {
      VerbsDiffer(other, op, detail);
    }
    assert Verb(op) <= Failure(op, detail);
    assert (DECODE_FAILURE + detail)[0] == 'r';
  }

  /** The failures that are retried, by how their messages start. */
  lemma RetryableByPrefix(error: string)
    ensures IsRetryable(error) <==>
              || "failed to connect " <= error || "failed to bind " <= error || "failed to open " <= error
              || "failed to send " <= error || "failed to write " <= error || "failed to flush " <= error
              || "failed to read " <= error
  {
    assert Connect in RETRYABLE && Bind in RETRYABLE && OpenPort in RETRYABLE && Send in RETRYABLE;
    assert Write in RETRYABLE && Flush in RETRYABLE && Operation.Read in RETRYABLE;
    assert "failed to connect " <= error ==> Verb(Connect) <= error;
    assert "failed to bind " <= error ==> Verb(Bind) <= error;
    assert "failed to open " <= error ==> Verb(OpenPort) <= error;
    assert "failed to send " <= error ==> Verb(Send) <= error;
    assert "failed to write " <= error ==> Verb(Write) <= error;
    assert "failed to flush " <= error ==> Verb(Flush) <= error;
    assert "failed to read " <= error ==> Verb(Operation.Read) <= error;
  }

  function AttemptBudget(c: ModbusReconnectConfig, isWrite: bool): uint32 {
    if !c.enabled || (isWrite && !c.retryWrites) then 1 else SaturatingIncrement(c.maxAttempts)
  }

  /**
   * The budget is one attempt more than the retries, or one attempt when the policy grants this request
   * none; it grants exactly the retries the policy allows, unless it saturates.
   */
  lemma BudgetMatchesPolicy(c: ModbusReconnectConfig, isWrite: bool)
    ensures AttemptBudget(c, isWrite) ==
            if c.enabled && (isWrite ==> c.retryWrites) then Min(c.maxAttempts + 1, UINT32_MAX) else 1
    ensures forall retry: uint32 :: c.AllowsAttempt(retry) <==> c.enabled && retry <= c.maxAttempts
    ensures (forall retry: uint32 | 1 <= retry ::
               retry < AttemptBudget(c, isWrite) <==> c.AllowsAttempt(retry) && (isWrite ==> c.retryWrites))
            <==> !(c.enabled && (isWrite ==> c.retryWrites) && c.maxAttempts == UINT32_MAX)
  {
    if c.maxAttempts == UINT32_MAX {
      assert c.AllowsAttempt(UINT32_MAX) <==> c.enabled;
    }
  }

  predicate GivesRetry(result: Result<seq<byte>, string>) {
    result.Err? && IsRetryable(result.error)
  }

  /** The wait before retry `retry`. */
  function Wait(policy: ModbusReconnectConfig, retry: nat): seq<Call> {
    if 1 <= retry <= UINT32_MAX && policy.DelayFor(retry).Some? then [Waited(policy.DelayFor(retry).value)] else []
  }

  function Pause(s: State, policy: ModbusReconnectConfig, retry: nat): State {
    if 1 <= retry <= UINT32_MAX && policy.DelayFor(retry).Some? then
      s.Record(Slept(policy.DelayFor(retry).value))
    else
      s
  }

  /** One request: `ios[i]` is what the operating system answers in its attempt `i + 1`. */
  datatype Request = Request(policy: ModbusReconnectConfig, endpoint: Endpoint, ios: seq<Io>) {
    /** The state in which attempt `n` starts when the request starts in `s`. */
    function Before(s: State, n: nat): State
      requires 1 <= n <= |ios|
      decreases n, 0
    {
      if n == 1 then s else Pause(Attempt(s, n - 1).0, policy, n - 1)
    }

    /** The state and the answer after attempt `n`. */
    function Attempt(s: State, n: nat): (State, Result<seq<byte>, string>)
      requires 1 <= n <= |ios|
      decreases n, 1
    {
      ExecuteStep(Before(s, n), endpoint, ios[n - 1])
    }

    /** The first `n` attempts all failed in a way that may be retried. */
    predicate AllRetried(s: State, n: nat)
      requires n <= |ios|
    {
      n == 0 || (AllRetried(s, n - 1) && GivesRetry(Attempt(s, n).1))
    }

    /** The calls and waits of the first `n` attempts. */
    function Calls(n: nat): seq<Call>
      requires n <= |ios|
    {
      if n == 0 then [] else Calls(n - 1) + Wait(policy, n - 1) + [Executed(endpoint, ios[n - 1])]
    }
  }

  lemma PauseRuns(s: State, policy: ModbusReconnectConfig, retry: nat)
    ensures Run(s, Wait(policy, retry)) == Pause(s, policy, retry)
  {
    if Wait(policy, retry) != [] {
      assert DropLast(Wait(policy, retry)) == [];
    }
  }

  lemma ExecuteRuns(s: State, e: Endpoint, io: Io)
    ensures Run(s, [Executed(e, io)]) == ExecuteStep(s, e, io).0
  {
    assert DropLast([Executed(e, io)]) == [];
  }

  /** A request with its retries is a run, so what holds over every run holds of it. */
  lemma {:induction false} RequestIsRun(r: Request, s: State, n: nat)
    requires 1 <= n <= |r.ios|
    ensures Run(s, r.Calls(n)) == r.Attempt(s, n).0
  {
    if n == 1 {
      assert r.Calls(1) == [Executed(r.endpoint, r.ios[0])];
    } else {
      RequestIsRun(r, s, n - 1);
      RunConcat(s, r.Calls(n - 1), Wait(r.policy, n - 1));
      PauseRuns(r.Attempt(s, n - 1).0, r.policy, n - 1);
      RunConcat(s, r.Calls(n - 1) + Wait(r.policy, n - 1), [Executed(r.endpoint, r.ios[n - 1])]);
    }
    ExecuteRuns(r.Before(s, n), r.endpoint, r.ios[n - 1]);
  }

  function Sleeps(trace: seq<Event>): seq<Duration> {
    if trace == [] then []
    else Sleeps(DropLast(trace)) + if Last(trace).Slept? then [Last(trace).delay] else []
  }

  /** The delays of the first `n` retries, where the policy has any. */
  function Delays(policy: ModbusReconnectConfig, n: uint32): seq<Duration> {
    if n == 0 then []
    else Delays(policy, n - 1) + if policy.DelayFor(n).Some? then [policy.DelayFor(n).value] else []
  }

  lemma {:induction false} SleepsAppend(trace: seq<Event>, more: seq<Event>)
    requires forall i | 0 <= i < |more| :: !more[i].Slept?
    ensures Sleeps(trace + more) == Sleeps(trace)
  {
    if more == [] {
      assert trace + more == trace;
    } else {
      assert DropLast(trace + more) == trace + DropLast(more) && Last(trace + more) == Last(more);
      SleepsAppend(trace, DropLast(more));
    }
  }

  lemma ExecuteSleepsNot(s: State, e: Endpoint, io: Io)
    ensures Sleeps(ExecuteStep(s, e, io).0.trace) == Sleeps(s.trace)
  {
    var after := ExecuteStep(s, e, io).0.trace;
    if e.kind.Udp? {
      DatagramTouchesNothing(s, e, io);
    } else {
      HandlesTouched(s, e, io);
    }
    var more := after[|s.trace|..];
    assert after == s.trace + more;
    SleepsAppend(s.trace, more);
  }

  lemma PauseSleeps(s: State, policy: ModbusReconnectConfig, retry: uint32)
    requires retry >= 1
    ensures Sleeps(Pause(s, policy, retry).trace) ==
            Sleeps(s.trace) + if policy.DelayFor(retry).Some? then [policy.DelayFor(retry).value] else []
  {
    if policy.DelayFor(retry).Some? {
      Recorded(s, Slept(policy.DelayFor(retry).value));
    }
  }

  lemma AttemptSleeps(r: Request, s: State, n: nat)
    requires 1 <= n <= |r.ios|
    ensures Sleeps(r.Attempt(s, n).0.trace) == Sleeps(r.Before(s, n).trace)
  {
    ExecuteSleepsNot(r.Before(s, n), r.endpoint, r.ios[n - 1]);
  }

  lemma BeforeSleeps(r: Request, s: State, n: nat, slept: seq<Duration>)
    requires 2 <= n <= |r.ios| && n <= UINT32_MAX && Sleeps(r.Attempt(s, n - 1).0.trace) == slept
    ensures Sleeps(r.Before(s, n).trace) ==
            slept + if r.policy.DelayFor(n - 1).Some? then [r.policy.DelayFor(n - 1).value] else []
  {
    PauseSleeps(r.Attempt(s, n - 1).0, r.policy, n - 1);
  }

  /** A request of `n` attempts sleeps before each retry, the policy's delay for that retry, and no other time. */
  lemma {:induction false} RequestSleeps(r: Request, s: State, n: nat)
    requires 1 <= n <= |r.ios| && n <= UINT32_MAX
    ensures Sleeps(r.Attempt(s, n).0.trace) == Sleeps(s.trace) + Delays(r.policy, n - 1)
  {
    AttemptSleeps(r, s, n);
    if n == 1 {
      FirstBefore(r, s);
      assert Sleeps(s.trace) + [] == Sleeps(s.trace);
    } else {
      RequestSleeps(r, s, n - 1);
      BeforeSleeps(r, s, n, Sleeps(s.trace) + Delays(r.policy, n - 2));
      DelaysNext(r.policy, n - 1, Sleeps(s.trace));
    }
  }

  lemma FirstBefore(r: Request, s: State)
    requires 1 <= |r.ios|
    ensures r.Before(s, 1) == s
  {
  }

  lemma DelaysNext(policy: ModbusReconnectConfig, n: uint32, slept: seq<Duration>)
    requires n >= 1
    ensures slept + Delays(policy, n) ==
            slept + Delays(policy, n - 1) + if policy.DelayFor(n).Some? then [policy.DelayFor(n).value] else []
  {
  }

  lemma FailureEmptiesSlot(s: State, e: Endpoint, io: Io)
    requires !e.kind.Udp? && ExecuteStep(s, e, io).1.Err?
    ensures ExecuteStep(s, e, io).0.slot.None?
  {
  }

  /**
   * A retry never meets the socket or port of the failed attempt: its slot is empty, so it opens a
   * new one and its answer depends on its own I/O alone.
   */
  lemma RetriesReconnect(r: Request, s: State, n: nat)
    requires 2 <= n <= |r.ios| && !r.endpoint.kind.Udp? && r.Attempt(s, n - 1).1.Err?
    ensures r.Before(s, n).slot.None?
    ensures r.Attempt(s, n).1 == Answer(r.endpoint.kind, r.ios[n - 1], false)
  {
    FailureEmptiesSlot(r.Before(s, n - 1), r.endpoint, r.ios[n - 2]);
    AnswersFirstFailure(r.Before(s, n), r.endpoint, r.ios[n - 1]);
  }

  class ModbusDriver {
    const endpoint: Endpoint
    const reconnect: ModbusReconnectConfig
    var slot: Option<Session>
    var openings: nat
    ghost var trace: seq<Event>

    constructor (endpoint: Endpoint, reconnect: ModbusReconnectConfig)
      ensures this.endpoint == endpoint && this.reconnect == reconnect && Now() == START
    {
      this.endpoint, this.reconnect := endpoint, reconnect;
      slot, openings, trace := None, 0, [];
    }

    ghost function Now(): State
      reads this
    {
      State(slot, openings, trace)
    }

    ghost function WithSlot(sub: Option<Session>): State
      reads this
    {
      State(sub, openings, trace)
    }

    method Close(session: Session)
      modifies this`trace
      ensures trace == old(trace) + [Closed(session.handle)]
    {
      trace := trace + [Closed(session.handle)];
    }

    method Open(family: Family, io: Io) returns (session: Result<Session, string>)
      modifies this`openings, this`trace
      ensures var handle := old(openings);
              if OpenError(family, io).Some? then
                session == Err(OpenError(family, io).value) && openings == handle && trace == old(trace)
              else
                && openings == handle + 1
                && if TimeoutError(family, io).Some? then
                     && session == Err(TimeoutError(family, io).value)
                     && trace == old(trace) + [Opened(handle)] + [Dropped(handle)]
                   else
                     session == Ok(Session(family, handle)) && trace == old(trace) + [Opened(handle)]
    {
      var failure := OpenError(family, io);
      if failure.Some? {
        return Err(failure.value);
      }
      var handle := openings;
      trace := trace + [Opened(handle)];
      openings := openings + 1;
      failure := TimeoutError(family, io);
      if failure.Some? {
        trace := trace + [Dropped(handle)];
        return Err(failure.value);
      }
      session := Ok(Session(family, handle));
    }

    /** A lean transport: it takes the session it is given and leaves the one to keep. */
    method LeanExecute(family: Family, e: Endpoint, io: Io, session: Option<Session>)
      returns (result: Result<seq<byte>, string>, kept: Option<Session>)
      requires session.Some? ==> session.value.family == family
      modifies this`openings, this`trace
      ensures FamilyOf(e.kind) == Some(family) ==>
                (WithSlot(kept), result) == ExecuteStep(old(WithSlot(session)), e, io)
      ensures FamilyOf(e.kind) != Some(family) ==>
                result.Err? && kept == session && openings == old(openings) && trace == old(trace)
    {
      if FamilyOf(e.kind) != Some(family) {
        return Err(if family.Socket? then "device endpoint is not Modbus TCP" else "device endpoint is not Modbus serial"),
               session;
      }
      kept := None;
      var current: Session;
      if e.persistent && session.Some? {
        current := session.value;
      } else {
        if session.Some? {
          Close(session.value);
        }
        var ready := Open(family, io);
        if ready.Err? {
          return Err(ready.error), None;
        }
        current := ready.value;
      }
      trace := trace + [Exchanged(current.handle)];
      result := Conversation(e.kind, io);
      if result.Ok? {
        if e.persistent {
          kept := Some(current);
        } else {
          trace := trace + [Dropped(current.handle)];
        }
      } else {
        Close(current);
      }
    }

    method Execute(e: Endpoint, io: Io) returns (result: Result<seq<byte>, string>)
      modifies this`slot, this`openings, this`trace
      ensures (Now(), result) == ExecuteStep(old(Now()), e, io)
    {
      var family := FamilyOf(e.kind);
      if family.None? {
        trace := trace + [DatagramExchanged];
        return Datagram(io);
      }
      var sub := slot;
      slot := None;
      if sub.Some? && sub.value.family != family.value {
        Close(sub.value);
        sub := None;
      }
      result, slot := LeanExecute(family.value, e, io, sub);
    }

    method Stop()
      modifies this`slot, this`trace
      ensures Now() == Discard(old(Now()))
    {
      var session := slot;
      slot := None;
      if session.Some? {
        Close(session.value);
      }
    }

    method Attempt(request: Request, ghost start: State, n: nat) returns (result: Result<seq<byte>, string>)
      requires request.endpoint == endpoint && 1 <= n <= |request.ios| && Now() == request.Before(start, n)
      modifies this`slot, this`openings, this`trace
      ensures (Now(), result) == request.Attempt(start, n)
    {
      result := Execute(endpoint, request.ios[n - 1]);
    }

    method Sleep(retry: uint32)
      requires retry >= 1
      modifies this`trace
      ensures Now() == Pause(old(Now()), reconnect, retry)
    {
      var delay := reconnect.DelayForAttempt(retry);
      if delay.Some? {
        trace := trace + [Slept(delay.value)];
      }
    }

    /** One attempt of the retry loop and, if another one follows, the sleep before it. */
    method Round(request: Request, ghost start: State, n: nat, budget: uint32)
      returns (result: Result<seq<byte>, string>, again: bool)
      requires request.endpoint == endpoint && request.policy == reconnect
      requires 1 <= n <= budget <= |request.ios| && Now() == request.Before(start, n)
      modifies this`slot, this`openings, this`trace
      ensures again <==> n < budget && GivesRetry(result)
      ensures result == request.Attempt(start, n).1
      ensures Now() == if again then request.Before(start, n + 1) else request.Attempt(start, n).0
    {
      result := Attempt(request, start, n);
      again := n < budget && GivesRetry(result);
      if again {
        Sleep(n);
      }
    }

    /**
     * The retry loop; `ios` has an answer for every attempt the budget allows. `n` attempts were
     * made: all but the last failed in a retryable way, and the last succeeded, failed for good or
     * used up the budget.
     */
    method ExecuteOnEndpoint(isWrite: bool, ios: seq<Io>)
      returns (result: Result<seq<byte>, string>, ghost n: nat)
      requires AttemptBudget(reconnect, isWrite) <= |ios|
      modifies this`slot, this`openings, this`trace
      ensures 1 <= n <= AttemptBudget(reconnect, isWrite)
      ensures (Now(), result) == Request(reconnect, endpoint, ios).Attempt(old(Now()), n)
      ensures Request(reconnect, endpoint, ios).AllRetried(old(Now()), n - 1)
      ensures GivesRetry(result) ==> n == AttemptBudget(reconnect, isWrite)
    {
      var budget := AttemptBudget(reconnect, isWrite);
      var request := Request(reconnect, endpoint, ios);
      ghost var start := Now();
      var attempt := 0;
      n := 0;
      while true
        invariant 0 <= attempt < budget && n == attempt
        invariant Now() == request.Before(start, attempt + 1)
        invariant request.AllRetried(start, attempt)
        decreases budget - attempt
      {
        var again: bool;
        result, again := Round(request, start, attempt + 1, budget);
        n := attempt + 1;
        if !again {
          return;
        }
        attempt := attempt + 1;
      }
    }
  }
}
