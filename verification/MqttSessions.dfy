/**
 * The session slot that concurrent callers of one MQTT driver share, and the connect handshake.
 * A caller's lock regions are the steps of a state machine, so every interleaving of any number of
 * callers, the background listener among them, is a run; the methods are those lock regions, and the
 * handshake's read loop.
 */
module MqttSessions {
  import opened Wrappers

  // ----- the handshake -----

  datatype Connack = Connack(reasonCode: Option<string>, reasonString: Option<string>)

  /**
   * One read of the handshake: the last CONNACK among its packets, if any, and whether it then failed.
   * `before` and `after` are what other callers of the driver put on record since the handshake last
   * looked at the record: before this read put its CONNACK there, and after.
   */
  datatype ReadOutcome = ReadOutcome(
    before: Option<Connack>, connack: Option<Connack>, failure: Option<string>, after: Option<Connack>)
  {
    /** What this round leaves on record, if anything new. */
    function Recorded(): Option<Connack> {
      OrElse(after, OrElse(connack, before))
    }

    predicate OthersRecord() {
      before.Some? || after.Some?
    }
  }

  const SUCCESS: string := "Success"

  function Rejection(connack: Connack): string {
    "mqtt connect rejected: " + connack.reasonString.GetOr(connack.reasonCode.GetOr(""))
  }

  function Judged(connack: Connack): Result<(), string> {
    if connack.reasonCode == Some(SUCCESS) then Ok(()) else Err(Rejection(connack))
  }

  /** The shared CONNACK after some rounds of the handshake. */
  function Latest(shared: Option<Connack>, inputs: seq<ReadOutcome>): Option<Connack> {
    if inputs == [] then shared else OrElse(Last(inputs).Recorded(), Latest(shared, DropLast(inputs)))
  }

  /** The handshake goes on after these reads: none failed and no CONNACK is on record. */
  predicate StillWaiting(shared: Option<Connack>, inputs: seq<ReadOutcome>) {
    inputs == [] ||
    (StillWaiting(shared, DropLast(inputs)) && Last(inputs).failure.None? && Latest(shared, inputs).None?)
  }

  /** The handshake ends with the last of these reads and gives `answer`. */
  predicate Concludes(shared: Option<Connack>, inputs: seq<ReadOutcome>, answer: Result<(), string>) {
    && inputs != []
    && StillWaiting(shared, DropLast(inputs))
    && if Last(inputs).failure.Some? then
         answer == Err(Last(inputs).failure.value)
       else
         Latest(shared, inputs).Some? && answer == Judged(Latest(shared, inputs).value)
  }

  class Handshake {
    var negotiated: Option<Connack>

    constructor (negotiated: Option<Connack>)
      ensures this.negotiated == negotiated
    {
      this.negotiated := negotiated;
    }

    method Record(connack: Option<Connack>)
      modifies this
      ensures negotiated == OrElse(connack, old(negotiated))
    {
      if connack.Some? {
        negotiated := connack;
      }
    }

    /**
     * Reads until a CONNACK is on record or a read fails, while other callers record theirs; `None`
     * when the reads given are used up.
     */
    method AwaitConnack(inputs: seq<ReadOutcome>) returns (answer: Option<Result<(), string>>, ghost n: nat)
      modifies this
      ensures n <= |inputs| && negotiated == Latest(old(negotiated), inputs[..n])
      ensures answer.Some? ==> Concludes(old(negotiated), inputs[..n], answer.value)
      ensures answer.None? ==> n == |inputs| && StillWaiting(old(negotiated), inputs)
    {
      n := 0;
      for i := 0 to |inputs|
        invariant n == i
        invariant negotiated == Latest(old(negotiated), inputs[..i])
        invariant StillWaiting(old(negotiated), inputs[..i])
      {
        n := i + 1;
        assert DropLast(inputs[..n]) == inputs[..i] && Last(inputs[..n]) == inputs[i];
        Record(inputs[i].before);
        Record(inputs[i].connack);
        Record(inputs[i].after);
        if inputs[i].failure.Some? {
          return Some(Err(inputs[i].failure.value)), n;
        }
        if negotiated.Some? {
          return Some(Judged(negotiated.value)), n;
        }
      }
      assert inputs[..|inputs|] == inputs;
      answer := None;
    }
  }

  /** The answer is what this connection's own broker said in its last read. */
  predicate Honest(inputs: seq<ReadOutcome>, answer: Result<(), string>)
    requires inputs != []
  {
    Last(inputs).failure.None? ==> Last(inputs).connack.Some? && answer == Judged(Last(inputs).connack.value)
  }

  /** What other callers record around each read of a handshake. */
  datatype Others = Others(before: Option<Connack>, after: Option<Connack>)

  predicate Silent(others: seq<Others>) {
    forall o <- others :: o == Others(None, None)
  }

  /** Reads of a handshake during which the other callers record what `others` says. */
  predicate During(inputs: seq<ReadOutcome>, others: seq<Others>) {
    && |inputs| <= |others|
    && forall i | 0 <= i < |inputs| :: Others(inputs[i].before, inputs[i].after) == others[i]
  }

  /** Reads that bring nothing, while others record. */
  function Nothing(others: seq<Others>): seq<ReadOutcome> {
    Map((o: Others) => ReadOutcome(o.before, None, None, o.after), others)
  }

  /**
   * The record of an earlier connection is not cleared first, and other callers write to the same one:
   * a handshake never concludes without its own broker's CONNACK, whatever it reads, exactly when
   * nothing is on record at its start and no other caller records anything meanwhile.
   */
  lemma HonestExactly(shared: Option<Connack>, others: seq<Others>)
    requires others != []
    ensures (forall inputs, answer :: During(inputs, others) && Concludes(shared, inputs, answer) ==> Honest(inputs, answer))
            <==> shared.None? && Silent(others)
  {
    if shared.None? && Silent(others) {
      forall inputs: seq<ReadOutcome>, answer | During(inputs, others) && Concludes(shared, inputs, answer)
        ensures Honest(inputs, answer)
      {
        NothingOnRecord(shared, DropLast(inputs));
        var last := |inputs| - 1;
        assert others[last] in others && Others(inputs[last].before, inputs[last].after) == others[last];
      }
    } else {
      var n := FirstRecord(shared, others);
      var inputs := Nothing(others[..n]);
      var answer := Judged(Latest(shared, inputs).value);
      assert During(inputs, others) && Concludes(shared, inputs, answer) && !Honest(inputs, answer);
    }
  }

  /** The round in which a handshake that reads nothing ends, on a record that is not its broker's. */
  lemma {:induction false} FirstRecord(shared: Option<Connack>, others: seq<Others>) returns (n: nat)
    requires others != [] && !(shared.None? && Silent(others))
    ensures 1 <= n <= |others| && StillWaiting(shared, DropLast(Nothing(others[..n])))
    ensures Latest(shared, Nothing(others[..n])).Some?
  {
    var before := others[..|others| - 1];
    assert others[..|others|] == others;
    assert DropLast(Nothing(others)) == Nothing(before);
    if before != [] && !(shared.None? && Silent(before)) {
      n := FirstRecord(shared, before);
      assert before[..n] == others[..n];
    } else {
      n := |others|;
      if before != [] {
        SilentWaits(before);
        assert others == before + [Last(others)];
      } else {
        assert others == [Last(others)] && Nothing(before) == [];
      }
    }
  }

  lemma {:induction false} SilentWaits(others: seq<Others>)
    requires Silent(others)
    ensures StillWaiting(None, Nothing(others)) && Latest(None, Nothing(others)).None?
  {
    if others != [] {
      assert forall o <- DropLast(others) :: o in others;
      SilentWaits(DropLast(others));
      assert DropLast(Nothing(others)) == Nothing(DropLast(others));
      assert Last(others) in others;
    }
  }

  lemma NothingOnRecord(shared: Option<Connack>, inputs: seq<ReadOutcome>)
    requires StillWaiting(shared, inputs)
    ensures Latest(shared, inputs) == if inputs == [] then shared else None
  {
  }

  /** Within a round of the handshake the last writer of the record wins. */
  lemma LastWriterWins(shared: Option<Connack>, inputs: seq<ReadOutcome>, input: ReadOutcome)
    ensures Latest(shared, inputs + [input]) ==
            if input.after.Some? then input.after
            else if input.connack.Some? then input.connack
            else if input.before.Some? then input.before
            else Latest(shared, inputs)
  {
    assert DropLast(inputs + [input]) == inputs;
  }

  /** A read that brings nothing while the other callers are silent. */
  predicate Uneventful(input: ReadOutcome) {
    input == ReadOutcome(None, None, None, None)
  }

  lemma {:induction false} UneventfulWaits(inputs: seq<ReadOutcome>)
    requires forall i | 0 <= i < |inputs| :: Uneventful(inputs[i])
    ensures StillWaiting(None, inputs) && Latest(None, inputs).None?
  {
    if inputs != [] {
      UneventfulWaits(DropLast(inputs));
      assert Uneventful(inputs[|inputs| - 1]);
    }
  }

  /**
   * What an undisturbed handshake answers: the first failed read's error, or the verdict of the first
   * CONNACK, success for the reason code "Success" and otherwise a rejection with its reason string, or
   * with its reason code if it has none.
   */
  lemma FirstConnackDecides(inputs: seq<ReadOutcome>, last: ReadOutcome, answer: Result<(), string>)
    requires forall i | 0 <= i < |inputs| :: Uneventful(inputs[i])
    requires last.before.None? && last.after.None?
    ensures Concludes(None, inputs + [last], answer) <==>
              if last.failure.Some? then answer == Err(last.failure.value)
              else
                && last.connack.Some?
                && var connack := last.connack.value;
                   if connack.reasonCode == Some("Success") then answer == Ok(())
                   else if connack.reasonString.Some? then
                     answer == Err("mqtt connect rejected: " + connack.reasonString.value)
                   else if connack.reasonCode.Some? then
                     answer == Err("mqtt connect rejected: " + connack.reasonCode.value)
                   else
                     answer == Err("mqtt connect rejected: " + "")
  {
    UneventfulWaits(inputs);
    assert DropLast(inputs + [last]) == inputs && Last(inputs + [last]) == last;
  }

  /** Once on record a CONNACK stays on record, so every later handshake ends with its first read. */
  lemma {:induction false} RecordStays(shared: Option<Connack>, inputs: seq<ReadOutcome>)
    requires shared.Some?
    ensures Latest(shared, inputs).Some?
    ensures forall answer :: Concludes(shared, inputs, answer) ==> |inputs| == 1
  {
    if inputs != [] {
      RecordStays(shared, DropLast(inputs));
      if |inputs| > 1 && StillWaiting(shared, DropLast(inputs)) {
        NothingOnRecord(shared, DropLast(inputs));
      }
    }
  }

  // ----- the shared slot -----

  /** Callers of the driver's operations, and the background listener from its start on. */
  datatype Caller = Direct(id: nat) | Listener

  type SessionId = nat

  /**
   * Where a caller is: between calls, about to connect, connecting, connected, free to take, or
   * exchanging; the listener also between giving a new session back and letting the broken one go.
   */
  datatype Pc =
    | Idle
    | FoundEmpty
    | Connecting(session: SessionId)
    | Established(session: SessionId)
    | Ready
    | Exchanging(session: SessionId)
    | Resuming

  /**
   * Where a session is: in the slot, in one caller's hands, broken but still open in the listener's
   * scope, or dropped.
   */
  datatype Place = InSlot | With(caller: Caller) | Broken | Dropped

  datatype Shared = Shared(
    slot: Option<SessionId>,
    pcs: map<Caller, Pc>,
    broken: Option<SessionId>,
    openings: nat,
    places: map<SessionId, Place>)

  const START: Shared := Shared(None, map[], None, 0, map[])

  /** One lock region, or one end of an I/O operation, of one caller; `running` is the listener flag. */
  datatype Step =
    | Check(caller: Caller)
    | Open(caller: Caller, ok: bool)
    | Settle(caller: Caller, ok: bool)
    | Store(caller: Caller)
    | Take(caller: Caller, running: bool)
    | Finish(caller: Caller, ok: bool)
    | Leave(caller: Caller)
    | Break      // the listener's session fails: it clears the slot and reconnects, keeping the session
    | Release    // the listener's iteration ends, and with it the broken session
    | Stop

  function Actor(step: Step): Option<Caller> {
    match step
    case Stop => None
    case Break => Some(Listener)
    case Release => Some(Listener)
    case _ => Some(step.caller)
  }

  function PcOf(s: Shared, c: Caller): Pc {
    if c in s.pcs then s.pcs[c] else Idle
  }

  function Holds(pc: Pc): Option<SessionId> {
    match pc
    case Connecting(id) => Some(id)
    case Established(id) => Some(id)
    case Exchanging(id) => Some(id)
    case _ => None
  }

  function Goto(s: Shared, c: Caller, pc: Pc): Shared {
    s.(pcs := s.pcs[c := pc])
  }

  function Moved(s: Shared, id: SessionId, place: Place): Shared {
    s.(places := s.places[id := place])
  }

  /** Whatever the slot holds is dropped. */
  function Emptied(s: Shared): Shared {
    if s.slot.Some? then Moved(s.(slot := None), s.slot.value, Dropped) else s
  }

  /** A caller polls for a session only while the listener runs, and the listener not while it reconnects. */
  predicate Polls(s: Shared, c: Caller, running: bool) {
    running && (c == Listener ==> s.broken.None?)
  }

  /** The exchange of a caller ends: the listener's own failure is a break unless it already reconnects. */
  predicate Finishes(s: Shared, c: Caller, ok: bool) {
    PcOf(s, c).Exchanging? && (c == Listener && !ok ==> s.broken.Some?)
  }

  predicate Breaks(s: Shared) {
    PcOf(s, Listener).Exchanging? && s.broken.None?
  }

  /** Where a caller goes on when it has given its session back. */
  function AfterGivingBack(s: Shared, c: Caller): Pc {
    if c != Listener then Idle else if s.broken.Some? then Resuming else Ready
  }

  /** A step its caller is not ready for changes nothing. */
  function After(s: Shared, step: Step): Shared {
    match step
    case Stop => Emptied(s)
    case Check(c) =>
      if PcOf(s, c) != Idle then s else Goto(s, c, if s.slot.Some? then Ready else FoundEmpty)
    case Open(c, ok) =>
      if PcOf(s, c) != FoundEmpty then s
      else if !ok then Goto(s, c, Idle)
      else Moved(Goto(s, c, Connecting(s.openings)), s.openings, With(c)).(openings := s.openings + 1)
    case Settle(c, ok) =>
      if !PcOf(s, c).Connecting? then s
      else if ok then Goto(s, c, Established(PcOf(s, c).session))
      else Moved(Goto(s, c, Idle), PcOf(s, c).session, Dropped)
    case Store(c) =>
      if !PcOf(s, c).Established? then s
      else if s.slot.None? then Moved(Goto(s, c, Ready), PcOf(s, c).session, InSlot).(slot := Some(PcOf(s, c).session))
      else Moved(Goto(s, c, Ready), PcOf(s, c).session, Dropped)
    case Take(c, running) =>
      if PcOf(s, c) != Ready then s
      else if s.slot.Some? then Moved(Goto(s, c, Exchanging(s.slot.value)), s.slot.value, With(c)).(slot := None)
      else if Polls(s, c, running) then s
      else Goto(s, c, Idle)
    case Finish(c, ok) =>
      if !Finishes(s, c, ok) then s
      else
        var own, left := PcOf(s, c).session, Emptied(s);
        if ok then Moved(Goto(left, c, AfterGivingBack(s, c)), own, InSlot).(slot := Some(own))
        else Moved(Goto(left, c, Idle), own, Dropped)
    case Leave(c) =>
      if PcOf(s, c) != Ready then s else Goto(s, c, Idle)
    case Break =>
      if !Breaks(s) then s
      else
        var own := PcOf(s, Listener).session;
        Moved(Goto(Emptied(s), Listener, Idle), own, Broken).(broken := Some(own))
    case Release =>
      if s.broken.None? || PcOf(s, Listener) !in {Idle, Resuming} then s
      else
        Moved(Goto(s, Listener, if PcOf(s, Listener).Resuming? then Ready else Idle), s.broken.value, Dropped)
          .(broken := None)
  }

  function Run(steps: seq<Step>): Shared {
    if steps == [] then START else After(Run(DropLast(steps)), Last(steps))
  }

  /** Every session ever opened is in exactly one place, and slot, callers and listener agree on which. */
  ghost predicate Owned(s: Shared) {
    && (forall id: SessionId :: id in s.places <==> id < s.openings)
    && (s.slot.Some? ==> Find(s.places, s.slot.value) == Some(InSlot))
    && (forall id: SessionId :: Find(s.places, id) == Some(InSlot) ==> s.slot == Some(id))
    && (s.broken.Some? ==> Find(s.places, s.broken.value) == Some(Broken))
    && (forall id: SessionId :: Find(s.places, id) == Some(Broken) ==> s.broken == Some(id))
    && (forall c: Caller :: Holds(PcOf(s, c)).Some? ==> Find(s.places, Holds(PcOf(s, c)).value) == Some(With(c)))
    && (forall id: SessionId :: Find(s.places, id).Some? && Find(s.places, id).value.With? ==>
          Holds(PcOf(s, Find(s.places, id).value.caller)) == Some(id))
  }

  lemma EmptiedOwned(s: Shared)
    requires Owned(s)
    ensures Owned(Emptied(s)) && Emptied(s).slot.None?
  {
    var after := Emptied(s);
    assert forall c: Caller :: PcOf(after, c) == PcOf(s, c);
  }

  /** A step between phases in which the caller holds nothing. */
  lemma IdleStepOwned(s: Shared, c: Caller, pc: Pc)
    requires Owned(s) && Holds(PcOf(s, c)).None? && Holds(pc).None?
    ensures Owned(Goto(s, c, pc))
  {
    var after := Goto(s, c, pc);
    assert forall d: Caller :: Holds(PcOf(after, d)) == Holds(PcOf(s, d));
  }

  /** The session in a caller's hands goes elsewhere: to an empty slot, to the listener's scope, or away. */
  lemma HandedOnOwned(s: Shared, c: Caller, pc: Pc, place: Place)
    requires Owned(s) && Holds(PcOf(s, c)).Some? && Holds(pc).None?
    requires (place == InSlot && s.slot.None?) || (place == Broken && s.broken.None?) || place == Dropped
    ensures var own := Holds(PcOf(s, c)).value;
            Owned(Moved(Goto(s, c, pc), own, place).(slot := if place == InSlot then Some(own) else s.slot,
                                                     broken := if place == Broken then Some(own) else s.broken))
  {
    var own := Holds(PcOf(s, c)).value;
    var after := Moved(Goto(s, c, pc), own, place).(slot := if place == InSlot then Some(own) else s.slot,
                                                    broken := if place == Broken then Some(own) else s.broken);
    assert forall d: Caller :: d != c ==> PcOf(after, d) == PcOf(s, d);
  }

  lemma OpenOwned(s: Shared, c: Caller, ok: bool)
    requires Owned(s)
    ensures Owned(After(s, Open(c, ok)))
  {
    var after := After(s, Open(c, ok));
    assert forall d: Caller :: d != c ==> PcOf(after, d) == PcOf(s, d);
  }

  lemma SettleOwned(s: Shared, c: Caller, ok: bool)
    requires Owned(s)
    ensures Owned(After(s, Settle(c, ok)))
  {
    if PcOf(s, c).Connecting? {
      if ok {
        var after := After(s, Settle(c, ok));
        assert forall d: Caller :: Holds(PcOf(after, d)) == Holds(PcOf(s, d));
      } else {
        HandedOnOwned(s, c, Idle, Dropped);
      }
    }
  }

  lemma TakeOwned(s: Shared, c: Caller)
    requires Owned(s) && PcOf(s, c) == Ready && s.slot.Some?
    ensures Owned(After(s, Take(c, true)))
  {
    var after := After(s, Take(c, true));
    assert forall d: Caller :: d != c ==> PcOf(after, d) == PcOf(s, d);
  }

  lemma FinishOwned(s: Shared, c: Caller, ok: bool)
    requires Owned(s)
    ensures Owned(After(s, Finish(c, ok)))
  {
    if Finishes(s, c, ok) {
      EmptiedOwned(s);
      assert PcOf(Emptied(s), c) == PcOf(s, c);
      if ok {
        HandedOnOwned(Emptied(s), c, AfterGivingBack(s, c), InSlot);
      } else {
        HandedOnOwned(Emptied(s), c, Idle, Dropped);
      }
    }
  }

  lemma BreakOwned(s: Shared)
    requires Owned(s)
    ensures Owned(After(s, Break))
  {
    if Breaks(s) {
      EmptiedOwned(s);
      assert PcOf(Emptied(s), Listener) == PcOf(s, Listener);
      HandedOnOwned(Emptied(s), Listener, Idle, Broken);
    }
  }

  lemma ReleaseOwned(s: Shared)
    requires Owned(s)
    ensures Owned(After(s, Release))
  {
    var after := After(s, Release);
    assert forall d: Caller :: Holds(PcOf(after, d)) == Holds(PcOf(s, d));
  }

  lemma AfterOwned(s: Shared, step: Step)
    requires Owned(s)
    ensures Owned(After(s, step))
  {
    match step
    case Stop => EmptiedOwned(s);
    case Open(c, ok) => OpenOwned(s, c, ok);
    case Settle(c, ok) => SettleOwned(s, c, ok);
    case Finish(c, ok) => FinishOwned(s, c, ok);
    case Break => BreakOwned(s);
    case Release => ReleaseOwned(s);
    case Store(c) =>
      if PcOf(s, c).Established? {
        HandedOnOwned(s, c, Ready, if s.slot.None? then InSlot else Dropped);
      }
    case Check(c) =>
      if PcOf(s, c) == Idle {
        IdleStepOwned(s, c, if s.slot.Some? then Ready else FoundEmpty);
      }
    case Leave(c) =>
      if PcOf(s, c) == Ready {
        IdleStepOwned(s, c, Idle);
      }
    case Take(c, running) =>
      if PcOf(s, c) == Ready {
        if s.slot.Some? {
          TakeOwned(s, c);
        } else {
          IdleStepOwned(s, c, Idle);
        }
      }
  }

  /** Over every interleaving of any number of callers no session is lost sight of or owned twice. */
  lemma {:induction false} RunOwned(steps: seq<Step>)
    ensures Owned(Run(steps))
  {
    if steps == [] {
      assert Run(steps) == START && forall c: Caller :: PcOf(START, c) == Idle;
    } else {
      RunOwned(DropLast(steps));
      AfterOwned(Run(DropLast(steps)), Last(steps));
    }
  }

  function Live(s: Shared): set<SessionId> {
    set id | id in s.places && s.places[id] != Dropped
  }

  /** Only these callers take steps; the driver may be stopped at any time. */
  predicate By(steps: seq<Step>, callers: set<Caller>) {
    forall step <- steps :: Actor(step).Some? ==> Actor(step).value in callers
  }

  /** With one caller the slot is empty while a session is in its hands or being connected. */
  ghost predicate Alone(s: Shared, c: Caller) {
    && (forall d: Caller :: d != c ==> PcOf(s, d) == Idle)
    && (Holds(PcOf(s, c)).Some? || PcOf(s, c).FoundEmpty? ==> s.slot.None?)
    && (s.broken.Some? ==> c == Listener)
  }

  lemma AfterAlone(s: Shared, step: Step, c: Caller)
    requires Alone(s, c) && Actor(step) in {None, Some(c)}
    ensures Alone(After(s, step), c)
  {
    assert forall d: Caller :: d != c ==> PcOf(After(s, step), d) == PcOf(s, d);
  }

  lemma {:induction false} RunAlone(steps: seq<Step>, c: Caller)
    requires By(steps, {c})
    ensures Alone(Run(steps), c)
  {
    if steps != [] {
      assert Last(steps) in steps && forall other <- DropLast(steps) :: other in steps;
      RunAlone(DropLast(steps), c);
      AfterAlone(Run(DropLast(steps)), Last(steps), c);
    }
  }

  /** Steps that take a session away: a failed handshake, a failed exchange, and stopping the driver. */
  predicate Fails(step: Step) {
    match step
    case Settle(_, ok) => !ok
    case Finish(_, ok) => !ok
    case Break => true
    case Stop => true
    case _ => false
  }

  function Failures(steps: seq<Step>): nat {
    if steps == [] then 0 else Failures(DropLast(steps)) + if Fails(Last(steps)) then 1 else 0
  }

  lemma OpeningStep(s: Shared, step: Step, c: Caller, failures: nat)
    requires Alone(s, c) && Actor(step) in {None, Some(c)}
    requires s.openings <= failures + |Singleton(Current(s, c))|
    ensures After(s, step).openings <= failures + (if Fails(step) then 1 else 0) + |Singleton(Current(After(s, step), c))|
  {
  }

  /**
   * Sessions are kept and reused: with one caller, every session opened after the first replaces one that
   * failed or was taken away by stopping the driver, so a success leaves its session for the next call.
   */
  lemma {:induction false} OpeningsJustified(steps: seq<Step>, c: Caller)
    requires By(steps, {c})
    ensures Run(steps).openings <= Failures(steps) + |Singleton(Current(Run(steps), c))| <= Failures(steps) + 1
  {
    if steps != [] {
      assert Last(steps) in steps && forall other <- DropLast(steps) :: other in steps;
      OpeningsJustified(DropLast(steps), c);
      RunAlone(DropLast(steps), c);
      OpeningStep(Run(DropLast(steps)), Last(steps), c, Failures(DropLast(steps)));
    }
  }

  /** A session whose handshake or exchange failed is dropped, unless the listener keeps it until its iteration ends. */
  lemma FailedIsDropped(s: Shared, c: Caller)
    requires Owned(s)
    ensures PcOf(s, c).Connecting? ==> Find(After(s, Settle(c, false)).places, PcOf(s, c).session) == Some(Dropped)
    ensures Finishes(s, c, false) ==> Find(After(s, Finish(c, false)).places, PcOf(s, c).session) == Some(Dropped)
    ensures Breaks(s) ==> After(s, Break).broken == Some(PcOf(s, Listener).session)
    ensures s.broken.Some? && PcOf(s, Listener) in {Idle, Resuming} ==>
              After(s, Release).broken.None? && Find(After(s, Release).places, s.broken.value) == Some(Dropped)
  {
  }

  /** A listener whose replay succeeded gives the new session back and lets the broken one go before it serves again. */
  lemma ResumeReleases(s: Shared)
    requires Owned(s) && Finishes(s, Listener, true) && s.broken.Some?
    ensures var given := After(s, Finish(Listener, true));
            && PcOf(given, Listener) == Resuming && given.slot == Some(PcOf(s, Listener).session)
            && PcOf(After(given, Release), Listener) == Ready && After(given, Release).broken.None?
            && Live(After(given, Release)) == Live(given) - {s.broken.value}
  {
    assert Find(s.places, s.broken.value) == Some(Broken);
  }

  /** And a dropped session is never used again. */
  lemma DroppedForever(s: Shared, step: Step, id: SessionId)
    requires Owned(s) && Find(s.places, id) == Some(Dropped)
    ensures Find(After(s, step).places, id) == Some(Dropped)
  {
    assert id < s.openings && s.slot != Some(id) && s.broken != Some(id);
    assert Actor(step).Some? ==> Holds(PcOf(s, Actor(step).value)) != Some(id);
  }

  /** Stopping the driver drops what the slot holds and nothing else. */
  lemma StopDropsSlot(s: Shared)
    requires Owned(s)
    ensures After(s, Stop).slot.None? && Live(After(s, Stop)) == Live(s) - Singleton(s.slot)
  {
    assert s.slot.Some? ==> Find(s.places, s.slot.value) == Some(InSlot);
  }

  /**
   * What a direct call does next, from where it is and what it meets: it looks into the slot; finding it
   * empty it connects and waits for its handshake; it stores its session unless another came first, takes
   * what the slot holds, waits for one only while the listener runs, and is done after its exchange.
   */
  lemma CallGoesOn(s: Shared, id: nat, ok: bool, running: bool)
    ensures var c := Direct(id);
            match PcOf(s, c)
            case Idle => PcOf(After(s, Check(c)), c) == if s.slot.Some? then Ready else FoundEmpty
            case FoundEmpty => PcOf(After(s, Open(c, ok)), c) == if ok then Connecting(s.openings) else Idle
            case Connecting(own) => PcOf(After(s, Settle(c, ok)), c) == if ok then Established(own) else Idle
            case Established(own) =>
              var after := After(s, Store(c));
              PcOf(after, c) == Ready && after.slot == if s.slot.Some? then s.slot else Some(own)
            case Ready =>
              var after := After(s, Take(c, running));
              && after.slot.None?
              && PcOf(after, c) == if s.slot.Some? then Exchanging(s.slot.value) else if running then Ready else Idle
            case Exchanging(own) =>
              var after := After(s, Finish(c, ok));
              PcOf(after, c) == Idle && after.slot == if ok then Some(own) else None
            case Resuming => true
  {
  }

  /** The sessions whose handshake succeeded. */
  function SettledIn(steps: seq<Step>): set<SessionId> {
    if steps == [] then {}
    else
      var before, step := Run(DropLast(steps)), Last(steps);
      SettledIn(DropLast(steps))
      + if step.Settle? && step.ok && PcOf(before, step.caller).Connecting? then {PcOf(before, step.caller).session} else {}
  }

  /** The session is in the slot, held past its handshake, or the listener's broken one. */
  ghost predicate InUse(s: Shared, id: SessionId) {
    || s.slot == Some(id) || s.broken == Some(id)
    || exists c: Caller :: PcOf(s, c) == Established(id) || PcOf(s, c) == Exchanging(id)
  }

  lemma InUseStep(s: Shared, step: Step, id: SessionId)
    requires InUse(After(s, step), id)
    ensures InUse(s, id) || (step.Settle? && step.ok && PcOf(s, step.caller) == Connecting(id))
  {
    if s.slot != Some(id) && s.broken != Some(id) && After(s, step).slot != Some(id) && After(s, step).broken != Some(id) {
      var c: Caller :| PcOf(After(s, step), c) == Established(id) || PcOf(After(s, step), c) == Exchanging(id);
      assert PcOf(s, c) == PcOf(After(s, step), c) || (step.Settle? && step.ok && step.caller == c);
    }
  }

  /** No session is used before its own handshake succeeded, over every interleaving. */
  lemma {:induction false} OnlySettledAreUsed(steps: seq<Step>, id: SessionId)
    requires InUse(Run(steps), id)
    ensures id in SettledIn(steps)
  {
    if steps != [] {
      InUseStep(Run(DropLast(steps)), Last(steps), id);
      if InUse(Run(DropLast(steps)), id) {
        OnlySettledAreUsed(DropLast(steps), id);
      }
    }
  }

  function Singleton(id: Option<SessionId>): set<SessionId> {
    if id.Some? then {id.value} else {}
  }

  /** The session one caller alone works with: the one in its hands, else the one in the slot. */
  function Current(s: Shared, c: Caller): Option<SessionId> {
    OrElse(Holds(PcOf(s, c)), s.slot)
  }

  /** With one caller the live sessions are the one it works with and the listener's broken one. */
  lemma SerialLive(steps: seq<Step>, c: Caller)
    requires By(steps, {c})
    ensures Live(Run(steps)) == Singleton(Current(Run(steps), c)) + Singleton(Run(steps).broken)
    ensures Run(steps).broken.Some? ==> c == Listener && Run(steps).broken != Current(Run(steps), c)
  {
    var s := Run(steps);
    RunOwned(steps);
    RunAlone(steps, c);
    forall id | id in Live(s)
      ensures Current(s, c) == Some(id) || s.broken == Some(id)
    {
      SoleOwner(s, c, id);
    }
    assert Holds(PcOf(s, c)).Some? ==> Find(s.places, Holds(PcOf(s, c)).value) == Some(With(c));
  }

  lemma SoleOwner(s: Shared, c: Caller, id: SessionId)
    requires Owned(s) && Alone(s, c) && id in Live(s)
    ensures Current(s, c) == Some(id) || s.broken == Some(id)
  {
    match s.places[id]
    case InSlot =>
      assert Find(s.places, id) == Some(InSlot);
    case Broken =>
      assert Find(s.places, id) == Some(Broken);
    case With(d) =>
      assert Find(s.places, id) == Some(With(d));
  }

  /** One caller of the driver's operations, one call after the other, never has two sessions alive. */
  lemma SerialUnique(steps: seq<Step>, id: nat)
    requires By(steps, {Direct(id)})
    ensures |Live(Run(steps))| <= 1
  {
    SerialLive(steps, Direct(id));
  }

  /**
   * The listener alone has two sessions alive exactly while it reconnects after a failure, from the
   * moment it opens or finds a new session until it lets the broken one go.
   */
  lemma ListenerTwoExactly(steps: seq<Step>)
    requires By(steps, {Listener})
    ensures var s := Run(steps);
            && |Live(s)| <= 2
            && (|Live(s)| == 2 <==> s.broken.Some? && Current(s, Listener).Some?)
  {
    SerialLive(steps, Listener);
    var s := Run(steps);
    if s.broken.Some? && Current(s, Listener).Some? {
      assert Live(s) == {Current(s, Listener).value, s.broken.value};
    }
  }

  lemma SomeCaller(callers: set<Caller>) returns (c: Caller)
    requires |callers| <= 1
    ensures callers <= {c} && (c == Listener ==> Listener in callers)
  {
    if callers == {} {
      c := Direct(0);
    } else {
      c :| c in callers;
      assert |callers - {c}| == |callers| - 1;
    }
  }

  lemma RunMore(steps: seq<Step>, step: Step)
    ensures Run(steps + [step]) == After(Run(steps), step)
  {
    assert DropLast(steps + [step]) == steps;
  }

  /** A caller connects a session and takes it. */
  function Connected(first: Caller): seq<Step> {
    [Check(first)] + [Open(first, true)] + [Settle(first, true)] + [Store(first)] + [Take(first, false)]
  }

  /** The first caller holds the session it connected, the second found the slot empty and connects too. */
  function Overlap(first: Caller, second: Caller): seq<Step> {
    Connected(first) + [Check(second)] + [Open(second, true)]
  }

  /** The listener's session fails and it connects another one. */
  function Reconnects(): seq<Step> {
    Connected(Listener) + [Break] + [Check(Listener)] + [Open(Listener, true)]
  }

  lemma FirstHolds(first: Caller)
    ensures Run(Connected(first)) == Shared(None, map[first := Exchanging(0)], None, 1, map[0 := With(first)])
  {
    var begun := [Check(first)] + [Open(first, true)];
    RunMore([], Check(first));
    assert [] + [Check(first)] == [Check(first)];
    RunMore([Check(first)], Open(first, true));
    assert Run(begun) == Shared(None, map[first := Connecting(0)], None, 1, map[0 := With(first)]);
    RunMore(begun, Settle(first, true));
    RunMore(begun + [Settle(first, true)], Store(first));
    RunMore(begun + [Settle(first, true)] + [Store(first)], Take(first, false));
  }

  lemma OverlapOpensTwo(first: Caller, second: Caller)
    requires first != second
    ensures Live(Run(Overlap(first, second))) == {0, 1}
  {
    FirstHolds(first);
    RunMore(Connected(first), Check(second));
    RunMore(Connected(first) + [Check(second)], Open(second, true));
  }

  lemma BreakKeeps()
    ensures Run(Connected(Listener) + [Break]) == Shared(None, map[Listener := Idle], Some(0), 1, map[0 := Broken])
  {
    FirstHolds(Listener);
    RunMore(Connected(Listener), Break);
  }

  lemma ReconnectOpensTwo()
    ensures Live(Run(Reconnects())) == {0, 1}
  {
    BreakKeeps();
    var broken := Connected(Listener) + [Break];
    RunMore(broken, Check(Listener));
    RunMore(broken + [Check(Listener)], Open(Listener, true));
  }

  lemma ReconnectsBy(callers: set<Caller>)
    requires Listener in callers
    ensures By(Reconnects(), callers)
  {
  }

  lemma OverlapBy(first: Caller, second: Caller, callers: set<Caller>)
    requires first in callers && second in callers
    ensures By(Overlap(first, second), callers)
  {
  }

  /**
   * Session uniqueness, exactly: no interleaving of these callers ever has two sessions alive if and
   * only if there is at most one of them and it is not the listener.
   */
  lemma UniqueExactly(callers: set<Caller>)
    ensures (forall steps :: By(steps, callers) ==> |Live(Run(steps))| <= 1)
            <==> |callers| <= 1 && Listener !in callers
  {
    if Listener in callers {
      ReconnectOpensTwo();
      ReconnectsBy(callers);
    } else if |callers| <= 1 {
      var c := SomeCaller(callers);
      forall steps | By(steps, callers)
        ensures |Live(Run(steps))| <= 1
      {
        SerialUnique(steps, c.id);
      }
    } else {
      var first, second := TwoCallers(callers);
      OverlapOpensTwo(first, second);
      OverlapBy(first, second, callers);
    }
  }

  lemma TwoCallers(callers: set<Caller>) returns (first: Caller, second: Caller)
    requires |callers| > 1
    ensures first in callers && second in callers && first != second
  {
    first :| first in callers;
    assert |callers - {first}| == |callers| - 1;
    second :| second in callers - {first};
  }

  /** The step ends an exchange of its caller. */
  predicate EndsExchange(s: Shared, step: Step) {
    (step.Finish? && Finishes(s, step.caller, step.ok)) || (step.Break? && Breaks(s))
  }

  /** A step of some caller drops a session that is in nobody's hands or in another caller's. */
  ghost predicate DropsAnother(s: Shared, step: Step) {
    && Actor(step).Some?
    && exists id :: id in Live(s) && id !in Live(After(s, step))
         && s.places[id] != With(Actor(step).value) && s.places[id] != Broken
  }

  lemma EndsDrop(s: Shared, step: Step, id: SessionId)
    requires Owned(s) && Actor(step).Some? && id in Live(s)
    requires s.places[id] != With(Actor(step).value) && s.places[id] != Broken
    ensures id !in Live(After(s, step)) <==> EndsExchange(s, step) && s.slot == Some(id)
  {
    assert Find(s.places, id) == Some(InSlot) <==> s.slot == Some(id);
    assert Holds(PcOf(s, Actor(step).value)) != Some(id);
    assert id < s.openings && s.broken != Some(id);
  }

  /**
   * A caller drops a session that is not its own exactly when it ends an exchange, whether that
   * succeeded or not, while the slot holds one that was stored there meanwhile.
   */
  lemma DropsAnotherExactly(s: Shared, step: Step)
    requires Owned(s) && Actor(step).Some?
    ensures DropsAnother(s, step) <==> EndsExchange(s, step) && s.slot.Some?
  {
    forall id | id in Live(s) && s.places[id] != With(Actor(step).value) && s.places[id] != Broken
      ensures id !in Live(After(s, step)) <==> EndsExchange(s, step) && s.slot == Some(id)
    {
      EndsDrop(s, step, id);
    }
    if s.slot.Some? {
      assert Find(s.places, s.slot.value) == Some(InSlot);
      assert s.slot.value in Live(s);
    }
  }

  /** The second caller connects and stores its session while the first still exchanges over its own. */
  function Collision(first: Caller, second: Caller): seq<Step> {
    Overlap(first, second) + [Settle(second, true)] + [Store(second)]
  }

  lemma CollisionFillsSlot(first: Caller, second: Caller)
    requires first != second
    ensures Run(Collision(first, second)).slot == Some(1)
    ensures PcOf(Run(Collision(first, second)), first) == Exchanging(0)
  {
    FirstHolds(first);
    RunMore(Connected(first), Check(second));
    RunMore(Connected(first) + [Check(second)], Open(second, true));
    RunMore(Overlap(first, second), Settle(second, true));
    RunMore(Overlap(first, second) + [Settle(second, true)], Store(second));
  }

  lemma AloneDropsNone(steps: seq<Step>, step: Step, c: Caller)
    requires By(steps, {c}) && Actor(step) == Some(c)
    ensures !DropsAnother(Run(steps), step)
  {
    RunOwned(steps);
    RunAlone(steps, c);
    DropsAnotherExactly(Run(steps), step);
  }

  /**
   * Collateral loss, exactly: no interleaving of these callers ever makes one of them drop a session
   * that is not its own if and only if there is at most one of them.
   */
  lemma CollateralExactly(callers: set<Caller>)
    ensures (forall steps, step :: By(steps, callers) && Actor(step).Some? && Actor(step).value in callers ==>
               !DropsAnother(Run(steps), step))
            <==> |callers| <= 1
  {
    if |callers| <= 1 {
      var only := SomeCaller(callers);
      forall steps, step | By(steps, callers) && Actor(step).Some? && Actor(step).value in callers
        ensures !DropsAnother(Run(steps), step)
      {
        AloneDropsNone(steps, step, only);
      }
    } else {
      var first, second := TwoCallers(callers);
      CollisionDrops(first, second);
      assert By(Collision(first, second), callers);
    }
  }

  lemma CollisionDrops(first: Caller, second: Caller)
    requires first != second
    ensures DropsAnother(Run(Collision(first, second)), Finish(first, true))
  {
    CollisionFillsSlot(first, second);
    RunOwned(Collision(first, second));
    DropsAnotherExactly(Run(Collision(first, second)), Finish(first, true));
  }

  /** The lock regions of the driver's session slot, each proved to be its caller's step of the machine. */
  class SessionSlot {
    var session: Option<SessionId>
    ghost var state: Shared

    constructor ()
      ensures Valid() && state == START
    {
      session, state := None, START;
    }

    ghost predicate Valid()
      reads this
    {
      state.slot == session
    }

    /** What a caller does between its lock regions leaves the slot alone. */
    ghost method Elsewhere(step: Step)
      requires Valid() && (step.Open? || step.Settle? || step.Leave? || step.Release?)
      modifies this`state
      ensures Valid() && state == After(old(state), step)
    {
      state := After(state, step);
    }

    method IsConnected(c: Caller) returns (connected: bool)
      requires Valid() && PcOf(state, c) == Idle
      modifies this`state
      ensures Valid() && state == After(old(state), Check(c))
      ensures PcOf(state, c) == if connected then Ready else FoundEmpty
    {
      connected := session.Some?;
      state := After(state, Check(c));
    }

    /** Connecting last: a session that lost the race is dropped. */
    method StoreIfEmpty(c: Caller, own: SessionId)
      requires Valid() && PcOf(state, c) == Established(own)
      modifies this
      ensures Valid() && state == After(old(state), Store(c))
    {
      if session.None? {
        session := Some(own);
      }
      state := After(state, Store(c));
    }

    /** One look for a session: without one the caller polls again only while the listener runs. */
    method TakeSession(c: Caller, running: bool) returns (taken: Option<SessionId>)
      requires Valid() && PcOf(state, c) == Ready
      modifies this
      ensures Valid() && state == After(old(state), Take(c, running))
      ensures PcOf(state, c) == if taken.Some? then Exchanging(taken.value)
                                else if Polls(old(state), c, running) then Ready else Idle
    {
      taken := session;
      session := None;
      state := After(state, Take(c, running));
    }

    /** Giving a session back overwrites the slot, giving up on one clears it. */
    method EndExchange(c: Caller, own: SessionId, ok: bool)
      requires Valid() && PcOf(state, c) == Exchanging(own) && Finishes(state, c, ok)
      modifies this
      ensures Valid() && state == After(old(state), Finish(c, ok))
    {
      session := if ok then Some(own) else None;
      state := After(state, Finish(c, ok));
    }

    /** The listener's session failed: the slot is cleared, and the session stays open until its iteration ends. */
    method ClearForReconnect()
      requires Valid() && Breaks(state)
      modifies this
      ensures Valid() && state == After(old(state), Break)
    {
      session := None;
      state := After(state, Break);
    }

    method Close()
      requires Valid()
      modifies this
      ensures Valid() && state == After(old(state), Stop)
    {
      session := None;
      state := After(state, Stop);
    }
  }
}
