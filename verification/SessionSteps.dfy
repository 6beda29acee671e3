/**
 * The pure session transitions and the engine event batch each accepted input produces.
 * Game modules stay uninterpreted: a transition or a resume adjustment is an argument.
 */
module SessionSteps {
  import opened Base
  import opened GameSdk
  import opened GameSession
  import Sorting

  datatype SourceKind = HostApi | RoomOutbox | Platform

  /** The durable platform fact behind a system transition. */
  datatype SystemSource = SystemSource(kind: SourceKind, eventId: Id, requestedBy: Id) {
    predicate Valid() {
      eventId != NIL && (kind == HostApi <==> requestedBy != NIL)
    }
  }

  /** The input that produced a batch. The constructors rule out mixed metadata. */
  datatype Cause =
    | Created
    | ByAction(actor: Id, actionId: Id)
    | ByTimer(timerId: string)
    | BySystem(operation: Id, source: SystemSource, digest: Digest)
  {
    predicate Valid(epoch: nat) {
      match this
      case Created => epoch == 0
      case ByAction(actor, actionId) => epoch != 0 && actor != NIL && actionId != NIL
      case ByTimer(timerId) => epoch != 0 && ValidIdentifier(timerId)
      case BySystem(operation, source, _) => epoch != 0 && operation != NIL && source.Valid()
    }
  }

  datatype Batch = Batch(id: Id, session: Id, version: nat, epoch: nat, cause: Cause,
                         execution: Execution, input: Message, events: seq<Message>, committedAt: Time)

  function RestoreBatch(raw: Batch): Result<Batch> {
    var b := raw.(execution := raw.execution.(now := Nanos(Micros(raw.execution.now))));
    if b.id == NIL || b.session == NIL || b.version == 0 || !b.execution.Valid()
       || Micros(b.execution.now) != b.committedAt
       || !b.input.Valid() || |b.events| == 0 || |b.events| > MAX_EVENTS || !b.cause.Valid(b.epoch)
       || (exists i :: 0 <= i < |b.events| && !b.events[i].Valid())
    then Err(InvalidSessionInput) else Ok(b)
  }

  datatype CreateRequest = CreateRequest(id: Id, room: Id, key: VersionKey, participants: seq<Participant>,
                                         start: StartConfig, batchId: Id, execution: Execution, input: Message,
                                         transition: Transition)

  function FreezeStart(start: StartConfig, config: Message): Result<StartConfig> {
    var frozen := start.(config := config);
    if !config.Valid() || (start.config.Valid() && start.config != config) || !frozen.Acceptable()
    then Err(InvalidSessionInput) else Ok(frozen)
  }

  function NewSession(r: CreateRequest): Result<(Session, Batch)> {
    if r.id == NIL || r.room == NIL || r.batchId == NIL || !r.key.Valid() || !r.execution.Valid() || !r.input.Valid()
       || |r.participants| == 0 || |r.participants| > MAX_PARTICIPANTS
       || !r.transition.Valid(0, r.execution.now) || (r.transition.finished && |r.transition.timers| != 0)
    then Err(InvalidSessionInput)
    else match CanonicalParticipants(r.participants)
      case Err(e) => Err(e)
      case Ok(participants) =>
        match CanonicalTimers(FromIntents(r.transition.timers, 1), 1)
        case Err(e) => Err(e)
        case Ok(armed) =>
          match FreezeStart(r.start, r.input)
          case Err(e) => Err(e)
          case Ok(start) =>
            match RestoreSession(Session(
              r.id, r.room, r.key, 0, participants, start, r.transition.snapshot, armed.0, armed.1,
              if r.transition.finished
              then Finished else Active, Micros(r.execution.now), Micros(r.execution.now), ZERO_TIME,
              if r.transition.finished then Micros(r.execution.now) else ZERO_TIME, ""))
            case Err(e) => Err(e)
            case Ok(session) =>
              match RestoreBatch(Batch(r.batchId, r.id, 1, 0, Created, r.execution, r.input, r.transition.events,
                                       Micros(r.execution.now)))
              case Err(e) => Err(e)
              case Ok(batch) => Ok((session, batch))
  }

  function AcquireOwnership(s: Session, expectedEpoch: nat, reading: Reading): Result<Session> {
    var at := Micros(reading);
    if s.status.Terminal() then Err(SessionTerminal)
    else if expectedEpoch != s.epoch then Err(OwnershipLost)
    else if expectedEpoch == MAX_UINT64 || at == ZERO_TIME || at <= s.updatedAt then Err(InvalidSessionInput)
    else RestoreSession(s.(epoch := s.epoch + 1, updatedAt := at))
  }

  /** The guards shared by action, timer and system inputs. */
  function TransitionGuard(s: Session, epoch: nat, transition: Transition): Option<Error> {
    if s.status.Terminal() then Some(SessionTerminal)
    else if s.status != Active then Some(SessionSuspended)
    else if epoch == 0 || epoch != s.epoch then Some(OwnershipLost)
    else if s.Version() == MAX_UINT64 || transition.snapshot.stateVersion != s.Version() + 1
    then Some(StateVersionConflict)
    else None
  }

  /** The snapshot after an engine step, before `RestoreSession` looks at it. */
  function Stepped(s: Session, transition: Transition, armed: (seq<Timer>, Time), at: Time): Session {
    var active := s.(state := transition.snapshot, timers := armed.0, deadline := armed.1, updatedAt := at);
    if transition.finished then active.(status := Finished, endedAt := at) else active
  }

  function ApplyTransition(s: Session, batchId: Id, epoch: nat, cause: Cause, execution: Execution, input: Message,
                           transition: Transition): Result<(Session, Batch)>
  {
    if !transition.Valid(s.Version(), execution.now) || (transition.finished && |transition.timers| != 0)
    then Err(InvalidSessionInput)
    else match CanonicalTimers(FromIntents(transition.timers, s.Version() + 1), s.Version() + 1)
      case Err(e) => Err(e)
      case Ok(armed) =>
        match RestoreSession(Stepped(s, transition, armed, Micros(execution.now)))
        case Err(e) => Err(e)
        case Ok(next) =>
          match RestoreBatch(Batch(batchId, s.id, s.Version() + 1, epoch, cause, execution, input, transition.events,
                                   Micros(execution.now)))
          case Err(e) => Err(e)
          case Ok(batch) => Ok((next, batch))
  }

  function ApplyAction(s: Session, batchId: Id, epoch: nat, actor: Id, actionId: Id, execution: Execution,
                       input: Message,
                       transition: Transition): Result<(Session, Batch)>
  {
    match TransitionGuard(s, epoch, transition)
    case Some(e) => Err(e)
    case None =>
      if batchId == NIL || actor == NIL || actionId == NIL || !execution.Valid() || Micros(execution.now) < s.updatedAt
         || !input.Valid() || !s.HasParticipant(actor)
      then Err(InvalidSessionInput)
      else ApplyTransition(s, batchId, epoch, ByAction(actor, actionId), execution, input, transition)
  }

  function FindTimer(ts: seq<Timer>, id: string): (r: Option<Timer>)
    ensures r.Some? <==> exists i :: 0 <= i < |ts| && ts[i].id == id
    ensures r.Some? ==> r.value in ts && r.value.id == id
  {
    if ts == [] then None
    else if ts[0].id == id then assert ts[0] in ts; Some(ts[0])
    else
      var rest := FindTimer(ts[1..], id);
      assert forall i :: 0 <= i < |ts[1..]| ==> ts[1..][i] == ts[i + 1];
      rest
  }

  function ApplyTimer(s: Session, batchId: Id, epoch: nat, timerId: string, expectedVersion: nat, execution: Execution,
                      input: Message, transition: Transition): Result<(Session, Batch)>
  {
    match TransitionGuard(s, epoch, transition)
    case Some(e) => Err(e)
    case None =>
      if expectedVersion != s.Version() then Err(StateVersionConflict)
      else if batchId == NIL || !ValidIdentifier(timerId) || !execution.Valid() || Micros(execution.now) < s.updatedAt
         || !input.Valid()
      then Err(InvalidSessionInput)
      else match FindTimer(s.timers, timerId)
        case None => Err(TimerNotFound)
        case Some(timer) =>
          if timer.expectedVersion != expectedVersion || Micros(execution.now) < timer.due || timer.message != input
          then Err(InvalidSessionInput)
          else ApplyTransition(s, batchId, epoch, ByTimer(timerId), execution, input, transition)
  }

  function ApplySystem(s: Session, batchId: Id, epoch: nat, expectedVersion: nat, operation: Id, source: SystemSource,
                       digest: Digest, execution: Execution, input: Message, transition: Transition): Result<(Session,
                       Batch)>
  {
    match TransitionGuard(s, epoch, transition)
    case Some(e) => Err(e)
    case None =>
      if expectedVersion != s.Version() then Err(StateVersionConflict)
      else if batchId == NIL || operation == NIL || !source.Valid() || !execution.Valid()
         || Micros(execution.now) < s.updatedAt
              || !input.Valid()
      then Err(InvalidSessionInput)
      else ApplyTransition(s, batchId, epoch, BySystem(operation, source, digest), execution, input, transition)
  }

  function Suspend(s: Session, expectedEpoch: nat, reading: Reading): Result<Session> {
    var at := Micros(reading);
    if s.status.Terminal() then Err(SessionTerminal)
    else if s.status != Active then Err(SessionSuspended)
    else if expectedEpoch == 0 || expectedEpoch != s.epoch then Err(OwnershipLost)
    else if at == ZERO_TIME || at <= s.updatedAt then Err(InvalidSessionInput)
    else RestoreSession(s.(status := Suspended, updatedAt := at, suspendedAt := at))
  }

  /** Timers pushed back by the length of the pause. */
  function ShiftTimers(ts: seq<Timer>, pausedFor: nat): seq<TimerIntent> {
    if ts == [] then []
    else [TimerIntent(ts[0].id, Nanos(ts[0].due + pausedFor), ts[0].message)] + ShiftTimers(ts[1..], pausedFor)
  }

  lemma {:induction false} ShiftTimersAt(ts: seq<Timer>, pausedFor: nat)
    ensures |ShiftTimers(ts, pausedFor)| == |ts|
    ensures forall i :: 0 <= i < |ts| ==>
      ShiftTimers(ts, pausedFor)[i] == TimerIntent(ts[i].id, Nanos(ts[i].due + pausedFor), ts[i].message)
  {
    if ts == [] {
    } else {
      ShiftTimersAt(ts[1..], pausedFor);
    }
  }

  /** What a module's resume hook did with the state and the shifted timers. */
  datatype Adjustment = NoAdjuster | AdjustmentFailed | Adjusted(state: GameState, timers: seq<TimerIntent>)

  /** The running session after a pause, given the state and timers to continue with. */
  function Reactivate(s: Session, at: Time, state: GameState, intents: seq<TimerIntent>): Result<Session> {
    if !s.state.SameEnvelope(state) || !state.state.Valid() then Err(InvalidSessionInput)
    else match CanonicalTimers(FromIntents(intents, s.Version()), s.Version())
      case Err(e) => Err(e)
      case Ok(armed) =>
        RestoreSession(s.(state := state, timers := armed.0, deadline := armed.1, status := Active,
                          updatedAt := at, suspendedAt := ZERO_TIME))
  }

  function ResumeGuard(s: Session, expectedEpoch: nat, at: Time): Option<Error> {
    if s.status.Terminal() then Some(SessionTerminal)
    else if s.status != Suspended then Some(InvalidLifecycleCommit)
    else if expectedEpoch == 0 || expectedEpoch != s.epoch then Some(OwnershipLost)
    else if at == ZERO_TIME || at <= s.updatedAt || s.suspendedAt == ZERO_TIME || at <= s.suspendedAt
    then Some(InvalidSessionInput)
    else None
  }

  function Resume(s: Session, expectedEpoch: nat, reading: Reading, adjustment: Adjustment): Result<Session> {
    var at := Micros(reading);
    match ResumeGuard(s, expectedEpoch, at)
    case Some(e) => Err(e)
    case None =>
      match adjustment
      case NoAdjuster => Reactivate(s, at, s.state, ShiftTimers(s.timers, at - s.suspendedAt))
      case AdjustmentFailed => Err(AdjustFailed)
      case Adjusted(state, timers) => Reactivate(s, at, state, timers)
  }

  function Cancel(s: Session, expectedEpoch: nat, reading: Reading, reason: string): Result<Session> {
    var at := Micros(reading);
    if s.status.Terminal() then Err(SessionTerminal)
    else if expectedEpoch == 0 || expectedEpoch != s.epoch then Err(OwnershipLost)
    else if at == ZERO_TIME || at <= s.updatedAt then Err(InvalidSessionInput)
    else RestoreSession(s.(status := Cancelled, timers := [], deadline := ZERO_TIME, updatedAt := at,
                           suspendedAt := ZERO_TIME, endedAt := at, cancelReason := reason))
  }

  // ----- what each accepted transition does -----

  /**
   * One timer for each intent, of this version and due at the intent's truncated deadline, in the order of their ids.
   */
  predicate Arms(ts: seq<Timer>, intents: seq<TimerIntent>, version: nat) {
    && |ts| == |intents| && (forall i, j :: 0 <= i < j < |ts| ==> Sorting.TextLess(ts[i].id, ts[j].id))
    && forall k :: 0 <= k < |intents| ==>
         Timer(intents[k].id, version, Micros(intents[k].due), intents[k].message) in ts
  }

  /**
   * The row after an engine step: the module's state and timers, the step's time, and an end if the module ended it.
   */
  predicate TakesTransition(s: Session, t: Session, transition: Transition, at: Time) {
    && t == s.(state := transition.snapshot, timers := t.timers, deadline := t.deadline, updatedAt := at,
               status := if transition.finished then Finished else Active,
               endedAt := if transition.finished then at else ZERO_TIME)
    && Arms(t.timers, transition.timers, s.Version() + 1) && FirstDue(t.deadline, t.timers)
  }

  lemma CanonicalTimersArm(intents: seq<TimerIntent>, version: nat)
    requires CanonicalTimers(FromIntents(intents, version), version).Ok? && |intents| <= MAX_TIMERS
    ensures var armed := CanonicalTimers(FromIntents(intents, version), version).value;
      Arms(armed.0, intents, version) && FirstDue(armed.1, armed.0)
  {
    var raw := FromIntents(intents, version);
    var armed := CanonicalTimers(raw, version).value;
    FromIntentsAt(intents, version);
    CanonicalTimersValid(raw, version);
    forall k | 0 <= k < |intents|
      ensures Timer(intents[k].id, version, Micros(intents[k].due), intents[k].message) in armed.0
    {
      assert raw[k] in raw;
    }
    forall i, j | 0 <= i < j < |armed.0| ensures Sorting.TextLess(armed.0[i].id, armed.0[j].id) {
      assert TimerLess(armed.0[i], armed.0[j]);
    }
    EarliestDueIff(armed.1, armed.0);
  }

  /** One engine step from s to t, recorded by batch b. */
  predicate StepsTo(s: Session, t: Session, b: Batch) {
    && t.Identity() == s.Identity() && s.status == Active && (t.status == Active || t.status == Finished)
    && s.epoch != 0 && t.epoch == s.epoch && t.Version() == s.Version() + 1
    && b.session == s.id && b.version == t.Version() && b.epoch == s.epoch && b.committedAt == t.updatedAt
    && s.updatedAt <= t.updatedAt
  }

  predicate Advances(s: Session, t: Session, b: Batch) {
    StepsTo(s, t, b) && t.Valid() && forall i :: 0 <= i < |t.timers| ==> t.updatedAt <= t.timers[i].due
  }

  /** No timer of a transition is due before the transition. */
  lemma TimersNotBefore(intents: seq<TimerIntent>, version: nat, now: Reading)
    requires forall i :: 0 <= i < |intents| ==> now <= intents[i].due
    ensures forall t :: t in FromIntents(intents, version) ==> Micros(now) <= t.due
  {
    FromIntentsAt(intents, version);
  }

  lemma SteppedRestores(s: Session, transition: Transition, armed: (seq<Timer>, Time), now: Reading)
    requires s.Valid() && s.status == Active && s.updatedAt <= Micros(now) && transition.Valid(s.Version(), now)
    requires ValidTimers(armed.0, s.Version() + 1) && RestoreSession(Stepped(s, transition, armed, Micros(now))).Ok?
    ensures RestoreSession(Stepped(s, transition, armed, Micros(now))).value ==
      Stepped(s, transition, armed, Micros(now))
    ensures Stepped(s, transition, armed, Micros(now)).Valid()
  {
    RestoreYieldsValid(Stepped(s, transition, armed, Micros(now)));
  }

  /** The stored row takes the module's state and timers, and the batch records the input and the module's events. */
  lemma ApplyTransitionExact(s: Session, batchId: Id, epoch: nat, cause: Cause, execution: Execution, input: Message,
                             transition: Transition)
    requires s.Valid() && s.status == Active && s.updatedAt <= Micros(execution.now)
    requires ApplyTransition(s, batchId, epoch, cause, execution, input, transition).Ok?
    ensures var r := ApplyTransition(s, batchId, epoch, cause, execution, input, transition).value;
      && TakesTransition(s, r.0, transition, Micros(execution.now)) && r.0.Valid()
      && r.1 == Batch(batchId, s.id, s.Version() + 1, epoch, cause,
                      execution.(now := Nanos(Micros(execution.now))), input, transition.events, Micros(execution.now))
  {
    var v := s.Version() + 1;
    CanonicalTimersArm(transition.timers, v);
    FromIntentsAt(transition.timers, v);
    CanonicalTimersValid(FromIntents(transition.timers, v), v);
    SteppedRestores(s, transition, CanonicalTimers(FromIntents(transition.timers, v), v).value, execution.now);
  }

  /**
   * What one accepted input of an active session leaves: the module's state and timers, and the record of the input.
   */
  predicate StepTaken(s: Session, r: (Session, Batch), batchId: Id, epoch: nat, cause: Cause, execution: Execution,
                      input: Message, transition: Transition)
  {
    && s.status == Active && epoch != 0 && epoch == s.epoch && s.updatedAt <= Micros(execution.now)
    && TakesTransition(s, r.0, transition, Micros(execution.now)) && r.0.Valid()
    && r.0.Version() == s.Version() + 1
    && r.1 == Batch(batchId, s.id, s.Version() + 1, epoch, cause, execution.(now := Nanos(Micros(execution.now))),
                    input, transition.events, Micros(execution.now))
  }

  lemma ActionTaken(s: Session, batchId: Id, epoch: nat, actor: Id, actionId: Id, execution: Execution, input: Message,
                    transition: Transition)
    requires s.Valid() && ApplyAction(s, batchId, epoch, actor, actionId, execution, input, transition).Ok?
    ensures StepTaken(s, ApplyAction(s, batchId, epoch, actor, actionId, execution, input, transition).value, batchId,
                      epoch, ByAction(actor, actionId), execution, input, transition)
    ensures s.HasParticipant(actor)
  {
    ApplyTransitionExact(s, batchId, epoch, ByAction(actor, actionId), execution, input, transition);
  }

  lemma TimerTaken(s: Session, batchId: Id, epoch: nat, timerId: string, version: nat, execution: Execution,
                   input: Message, transition: Transition)
    requires s.Valid() && ApplyTimer(s, batchId, epoch, timerId, version, execution, input, transition).Ok?
    ensures StepTaken(s, ApplyTimer(s, batchId, epoch, timerId, version, execution, input, transition).value, batchId,
                      epoch, ByTimer(timerId), execution, input, transition)
    ensures version == s.Version()
    ensures exists k :: 0 <= k < |s.timers| && s.timers[k].id == timerId && s.timers[k].due <= Micros(execution.now)
                        && s.timers[k].message == input
  {
    ApplyTransitionExact(s, batchId, epoch, ByTimer(timerId), execution, input, transition);
    var found := FindTimer(s.timers, timerId).value;
    var k :| 0 <= k < |s.timers| && s.timers[k] == found;
  }

  lemma SystemTaken(s: Session, batchId: Id, epoch: nat, version: nat, operation: Id, source: SystemSource,
                    digest: Digest, execution: Execution, input: Message, transition: Transition)
    requires s.Valid()
    requires ApplySystem(s, batchId, epoch, version, operation, source, digest, execution, input, transition).Ok?
    ensures StepTaken(s, ApplySystem(s, batchId, epoch, version, operation, source, digest, execution, input,
                                     transition).value, batchId, epoch, BySystem(operation, source, digest), execution,
                      input, transition)
    ensures version == s.Version()
  {
    ApplyTransitionExact(s, batchId, epoch, BySystem(operation, source, digest), execution, input, transition);
  }

  lemma ApplyTransitionAdvances(s: Session, batchId: Id, epoch: nat, cause: Cause, execution: Execution, input: Message,
                                transition: Transition)
    requires s.Valid() && s.status == Active && epoch != 0 && epoch == s.epoch && s.updatedAt <= Micros(execution.now)
    requires ApplyTransition(s, batchId, epoch, cause, execution, input, transition).Ok?
    ensures var r := ApplyTransition(s, batchId, epoch, cause, execution, input, transition).value;
      && Advances(s, r.0, r.1) && r.1.cause == cause && r.1.committedAt == Micros(execution.now)
      && r.1.input == input && r.1.id == batchId && r.1.committedAt != ZERO_TIME
      && (r.0.status == Finished <==> transition.finished)
  {
    var v := s.Version() + 1;
    var raw := FromIntents(transition.timers, v);
    FromIntentsAt(transition.timers, v);
    CanonicalTimersValid(raw, v);
    SteppedRestores(s, transition, CanonicalTimers(raw, v).value, execution.now);
    TimersNotBefore(transition.timers, v, execution.now);
  }

  lemma SuspendShape(s: Session, epoch: nat, at: Reading)
    requires s.Valid()
    ensures Suspend(s, epoch, at).Ok? <==>
      s.status == Active && epoch != 0 && epoch == s.epoch && s.updatedAt < Micros(at)
    ensures Suspend(s, epoch, at).Ok? ==> var t := Suspend(s, epoch, at).value;
      && t == s.(status := Suspended, updatedAt := Micros(at), suspendedAt := Micros(at)) && t.Valid()
  {
    if s.status == Active && epoch != 0 && epoch == s.epoch && s.updatedAt < Micros(at) {
      RestoreFixedPoint(s.(status := Suspended, updatedAt := Micros(at), suspendedAt := Micros(at)));
    }
  }

  lemma AcquireShape(s: Session, epoch: nat, at: Reading)
    requires s.Valid()
    ensures AcquireOwnership(s, epoch, at).Ok? <==>
      !s.status.Terminal() && epoch == s.epoch && epoch != MAX_UINT64 && s.updatedAt < Micros(at)
    ensures AcquireOwnership(s, epoch, at).Ok? ==>
      var t := AcquireOwnership(s, epoch, at).value;
      t == s.(epoch := s.epoch + 1, updatedAt := Micros(at)) && t.Valid()
  {
    if !s.status.Terminal() && epoch == s.epoch && epoch != MAX_UINT64 && s.updatedAt < Micros(at) {
      RestoreFixedPoint(s.(epoch := s.epoch + 1, updatedAt := Micros(at)));
    }
  }

  /** The cancelled session; an empty reason becomes the platform's own. */
  function CancelledSession(s: Session, at: Time, reason: string): Session {
    s.(status := Cancelled, timers := [], deadline := ZERO_TIME, updatedAt := at, suspendedAt := ZERO_TIME,
       endedAt := at,
       cancelReason := if reason == "" then PLATFORM_CANCELLED else reason)
  }

  lemma CancelShape(s: Session, epoch: nat, at: Reading, reason: string)
    requires s.Valid()
    ensures Cancel(s, epoch, at, reason).Ok? <==>
      !s.status.Terminal() && epoch != 0 && epoch == s.epoch && s.updatedAt < Micros(at)
        && (reason == "" || ValidIdentifier(reason))
    ensures Cancel(s, epoch, at, reason).Ok? ==>
      var t := Cancel(s, epoch, at, reason).value; t.Valid() && t == CancelledSession(s, Micros(at), reason)
  {
    if !s.status.Terminal() && epoch != 0 && epoch == s.epoch && s.updatedAt < Micros(at) {
      Sorting.SortFixed(s.participants, ParticipantLess);
      PlatformCancelledIsIdentifier();
    }
  }

  /** Each timer of t is the same timer of s, later by exactly `pausedFor`. */
  predicate ShiftedBy(s: seq<Timer>, t: seq<Timer>, pausedFor: int) {
    && |s| == |t|
    && forall i :: 0 <= i < |s| ==>
         && t[i].id == s[i].id && t[i].expectedVersion == s[i].expectedVersion
         && t[i].due == s[i].due + pausedFor && s[i].message.SameEnvelope(t[i].message)
  }

  /** A uniform shift moves the next deadline by the same amount. */
  lemma {:induction false} EarliestDueShifts(s: seq<Timer>, t: seq<Timer>, pausedFor: int)
    requires s != [] && ShiftedBy(s, t, pausedFor)
    ensures EarliestDue(t) == EarliestDue(s) + pausedFor
  {
    if |s| == 1 {
    } else {
      EarliestDueShifts(s[1..], t[1..], pausedFor);
    }
  }

  lemma ShiftedAt(ts: seq<Timer>, version: nat, pausedFor: nat)
    requires forall i :: 0 <= i < |ts| ==> ts[i].expectedVersion == version
    ensures var moved := FromIntents(ShiftTimers(ts, pausedFor), version);
      |moved| == |ts| && forall i :: 0 <= i < |ts| ==> moved[i] == ts[i].(due := ts[i].due + pausedFor)
  {
    ShiftTimersAt(ts, pausedFor);
    FromIntentsAt(ShiftTimers(ts, pausedFor), version);
  }

  lemma LaterTimersValid(ts: seq<Timer>, moved: seq<Timer>, version: nat, pausedFor: nat)
    requires ValidTimers(ts, version) && |moved| == |ts| && forall i :: 0 <= i < |ts| ==>
      moved[i] == ts[i].(due := ts[i].due + pausedFor)
    ensures ValidTimers(moved, version) && ShiftedBy(ts, moved, pausedFor)
  {
    forall i, j | 0 <= i < j < |moved| ensures TimerLess(moved[i], moved[j]) && OtherTimer(moved[i], moved[j]) {
      assert TimerLess(ts[i], ts[j]) && OtherTimer(ts[i], ts[j]);
    }
    assert forall i :: 0 <= i < |moved| ==> AcceptableTimer(ts[i], version);
  }

  /** The shifted timers of a valid session are already in final form. */
  lemma ShiftedTimersValid(ts: seq<Timer>, version: nat, pausedFor: nat)
    requires ValidTimers(ts, version)
    ensures var moved := FromIntents(ShiftTimers(ts, pausedFor), version);
      && ShiftedBy(ts, moved, pausedFor) && ValidTimers(moved, version)
      && CanonicalTimers(moved, version) == Ok((moved, EarliestDue(moved)))
  {
    var moved := FromIntents(ShiftTimers(ts, pausedFor), version);
    assert forall i :: 0 <= i < |ts| ==> AcceptableTimer(ts[i], version);
    ShiftedAt(ts, version, pausedFor);
    LaterTimersValid(ts, moved, version, pausedFor);
    CanonicalTimersFixed(moved, version);
  }

  lemma SortedTimersCounted(ts: seq<Timer>)
    ensures |Sorting.Sort(ts, TimerLess)| == |ts|
  {
    Sorting.SortKeeps(ts, TimerLess);
    assert |ts| == |multiset(ts)| && |Sorting.Sort(ts, TimerLess)| == |multiset(Sorting.Sort(ts, TimerLess))|;
  }

  lemma ReactivateShape(s: Session, at: Time, state: GameState, intents: seq<TimerIntent>)
    requires s.Valid() && s.status == Suspended && s.updatedAt < at && Reactivate(s, at, state, intents).Ok?
    ensures var t := Reactivate(s, at, state, intents).value;
      && t.Valid() && s.state.SameEnvelope(t.state) && t.state == state && Arms(t.timers, intents, s.Version())
      && t == s.(state := t.state, status := Active, updatedAt := at, suspendedAt := ZERO_TIME, timers := t.timers,
                 deadline := t.deadline)
  {
    FromIntentsAt(intents, s.Version());
    var armed := CanonicalTimers(FromIntents(intents, s.Version()), s.Version()).value;
    SortedTimersCounted(FromIntents(intents, s.Version()));
    CanonicalTimersArm(intents, s.Version());
    CanonicalTimersValid(FromIntents(intents, s.Version()), s.Version());
    RestoreYieldsValid(s.(state := state, timers := armed.0, deadline := armed.1, status := Active, updatedAt := at,
                          suspendedAt := ZERO_TIME));
  }

  /** The running session with every timer pushed back by the pause. */
  function ShiftedSession(s: Session, at: Time): Session
    requires s.suspendedAt <= at
  {
    var moved := FromIntents(ShiftTimers(s.timers, at - s.suspendedAt), s.Version());
    s.(status := Active, updatedAt := at, suspendedAt := ZERO_TIME, timers := moved, deadline := EarliestDue(moved))
  }

  lemma RunningAgainValid(s: Session, at: Time, moved: seq<Timer>)
    requires s.Valid() && s.status == Suspended && s.updatedAt < at && ValidTimers(moved, s.Version())
    ensures s.(status := Active, updatedAt := at, suspendedAt := ZERO_TIME, timers := moved,
               deadline := EarliestDue(moved)).Valid()
  {
  }

  lemma ShiftedSessionValid(s: Session, at: Time)
    requires s.Valid() && s.status == Suspended && s.updatedAt < at
    ensures var t := ShiftedSession(s, at);
      && t.Valid() && ShiftedBy(s.timers, t.timers, at - s.suspendedAt)
      && CanonicalTimers(t.timers, s.Version()) == Ok((t.timers, t.deadline))
  {
    ShiftedTimersValid(s.timers, s.Version(), at - s.suspendedAt);
    RunningAgainValid(s, at, FromIntents(ShiftTimers(s.timers, at - s.suspendedAt), s.Version()));
  }

  lemma ReactivateExact(s: Session, at: Time)
    requires s.suspendedAt <= at && s.state.state.Valid()
    requires var t := ShiftedSession(s, at);
      CanonicalTimers(t.timers, s.Version()) == Ok((t.timers, t.deadline)) && RestoreSession(t) == Ok(t)
    ensures Reactivate(s, at, s.state, ShiftTimers(s.timers, at - s.suspendedAt)) == Ok(ShiftedSession(s, at))
  {
  }

  lemma ReactivateShifted(s: Session, at: Time)
    requires s.Valid() && s.status == Suspended && s.updatedAt < at
    ensures Reactivate(s, at, s.state, ShiftTimers(s.timers, at - s.suspendedAt)) == Ok(ShiftedSession(s, at))
  {
    ShiftedSessionValid(s, at);
    RestoreFixedPoint(ShiftedSession(s, at));
    ReactivateExact(s, at);
  }

  lemma ResumeGuardPasses(s: Session, epoch: nat, at: Time)
    requires s.Valid()
    ensures ResumeGuard(s, epoch, at).None? <==>
      s.status == Suspended && epoch != 0 && epoch == s.epoch && s.updatedAt < at
  {
  }

  /** Resuming without an adjuster fails only on time and epoch; it shifts every timer and changes nothing else. */
  lemma PlainResumeExact(s: Session, epoch: nat, at: Reading)
    requires s.Valid() && s.status == Suspended
    ensures if epoch != 0 && epoch == s.epoch && s.updatedAt < Micros(at)
      then Resume(s, epoch, at, NoAdjuster) == Ok(ShiftedSession(s, Micros(at)))
      else Resume(s, epoch, at, NoAdjuster).Err?
  {
    ResumeGuardPasses(s, epoch, Micros(at));
    if ResumeGuard(s, epoch, Micros(at)).None? { ReactivateShifted(s, Micros(at)); }
  }

  /** A resume of either kind keeps everything but the state payload, the timers and the clocks. */
  lemma ResumeShape(s: Session, epoch: nat, at: Reading, adjustment: Adjustment)
    requires s.Valid() && Resume(s, epoch, at, adjustment).Ok?
    ensures var t := Resume(s, epoch, at, adjustment).value;
      && t.Valid() && s.status == Suspended && epoch != 0 && epoch == s.epoch && s.updatedAt < Micros(at)
      && s.state.SameEnvelope(t.state) && FirstDue(t.deadline, t.timers)
      && t == s.(state := t.state, status := Active, updatedAt := Micros(at), suspendedAt := ZERO_TIME,
                 timers := t.timers, deadline := t.deadline)
      && (if adjustment.Adjusted? then t.state == adjustment.state && Arms(t.timers, adjustment.timers, s.Version())
          else t.state == s.state && ShiftedBy(s.timers, t.timers, Micros(at) - s.suspendedAt))
  {
    var t := Resume(s, epoch, at, adjustment).value;
    ResumeGuardPasses(s, epoch, Micros(at));
    match adjustment
    case NoAdjuster =>
      PlainResumeExact(s, epoch, at);
      ShiftedSessionShape(s, Micros(at));
      DeadlineIsFirst(t);
    case AdjustmentFailed =>
    case Adjusted(state, timers) =>
      ReactivateShape(s, Micros(at), state, timers);
      DeadlineIsFirst(t);
  }

  lemma ShiftedSessionShape(s: Session, at: Time)
    requires s.Valid() && s.status == Suspended && s.updatedAt < at
    ensures ShiftedSession(s, at).Valid() && ShiftedBy(s.timers, ShiftedSession(s, at).timers, at - s.suspendedAt)
  {
    ShiftedSessionValid(s, at);
    ShiftedTimersValid(s.timers, s.Version(), at - s.suspendedAt);
  }

  lemma DeadlineIsFirst(t: Session)
    requires t.Valid()
    ensures FirstDue(t.deadline, t.timers)
  {
    EarliestDueIff(t.deadline, t.timers);
  }

  /** The first row and batch of a session take the request's values and the module's first transition. */
  lemma NewSessionExact(r: CreateRequest)
    requires NewSession(r).Ok?
    ensures var s := NewSession(r).value.0; var at := Micros(r.execution.now);
      && s == Session(r.id, r.room, r.key, 0, s.participants, r.start.(config := r.input), r.transition.snapshot,
                      s.timers, s.deadline, if r.transition.finished then Finished else Active, at, at, ZERO_TIME,
                      if r.transition.finished then at else ZERO_TIME, "")
      && Arms(s.timers, r.transition.timers, 1) && FirstDue(s.deadline, s.timers)
      && multiset(s.participants) == multiset(r.participants)
      && (forall i, j :: 0 <= i < j < |s.participants| ==> s.participants[i].seat < s.participants[j].seat)
      && NewSession(r).value.1 == Batch(r.batchId, r.id, 1, 0, Created, r.execution.(now := Nanos(at)), r.input,
                                        r.transition.events, at)
  {
    CanonicalTimersArm(r.transition.timers, 1);
    CanonicalParticipantsValid(r.participants);
    NewSessionRow(r);
    SeatsIncrease(CanonicalParticipants(r.participants).value);
  }

  lemma SeatsIncrease(ps: seq<Participant>)
    requires ValidParticipants(ps)
    ensures forall i, j :: 0 <= i < j < |ps| ==> ps[i].seat < ps[j].seat
  {
    forall i, j | 0 <= i < j < |ps| ensures ps[i].seat < ps[j].seat {
      assert ParticipantLess(ps[i], ps[j]) && Apart(ps[i], ps[j]);
    }
  }

  lemma NewSessionRow(r: CreateRequest)
    requires NewSession(r).Ok?
    ensures
      var armed := CanonicalTimers(FromIntents(r.transition.timers, 1), 1).value;
      var at := Micros(r.execution.now);
      && NewSession(r).value.0 ==
         Session(r.id, r.room, r.key, 0, CanonicalParticipants(r.participants).value, r.start.(config := r.input),
                 r.transition.snapshot, armed.0, armed.1, if r.transition.finished then Finished else Active, at, at,
                 ZERO_TIME, if r.transition.finished then at else ZERO_TIME, "")
      && NewSession(r).value.1 == Batch(r.batchId, r.id, 1, 0, Created, r.execution.(now := Nanos(at)), r.input,
                                        r.transition.events, at)
  {
    var ps := CanonicalParticipants(r.participants).value;
    var armed := CanonicalTimers(FromIntents(r.transition.timers, 1), 1).value;
    var at := Micros(r.execution.now);
    CanonicalParticipantsValid(r.participants);
    FromIntentsAt(r.transition.timers, 1);
    CanonicalTimersValid(FromIntents(r.transition.timers, 1), 1);
    RestoreYieldsValid(Session(r.id, r.room, r.key, 0, ps, r.start.(config := r.input), r.transition.snapshot, armed.0,
                               armed.1, if r.transition.finished then Finished else Active, at, at, ZERO_TIME,
                               if r.transition.finished then at else ZERO_TIME, ""));
  }

  lemma NewSessionShape(r: CreateRequest)
    requires NewSession(r).Ok?
    ensures var s := NewSession(r).value.0; var b := NewSession(r).value.1;
      && s.Valid() && s.id == r.id && s.room == r.room && s.key == r.key && s.epoch == 0 && s.Version() == 1
      && s.startedAt == Micros(r.execution.now) && s.updatedAt == s.startedAt
      && s.status == (if r.transition.finished then Finished else Active)
      && multiset(s.participants) == multiset(r.participants)
      && b.session == s.id && b.version == 1 && b.epoch == 0 && b.cause == Created && b.committedAt == s.startedAt
      && b.id != NIL
  {
    var ps := CanonicalParticipants(r.participants).value;
    var armed := CanonicalTimers(FromIntents(r.transition.timers, 1), 1).value;
    var start := FreezeStart(r.start, r.input).value;
    var at := Micros(r.execution.now);
    CanonicalParticipantsValid(r.participants);
    RestoreYieldsValid(Session(r.id, r.room, r.key, 0, ps, start, r.transition.snapshot, armed.0, armed.1,
                               if r.transition.finished then Finished else Active, at, at, ZERO_TIME,
                               if r.transition.finished then at else ZERO_TIME, ""));
  }
}
