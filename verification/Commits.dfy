/**
 * Receipts and the commit values that the store accepts. A commit constructor admits only a coherent
 * pair of sessions with the batch, receipt and notifications that belong to the step between them.
 */
module Commits {
  import opened Base
  import opened GameSdk
  import opened GameSession
  import opened SessionSteps

  datatype EventKind = SessionCreatedEvent | SessionTransitionedEvent | SessionSuspendedEvent | SessionResumedEvent
    | SessionCancelledEvent

  /** A durable notification; sequence 0 means not stored yet. */
  datatype OutboxEvent = OutboxEvent(sequence: nat, kind: EventKind, aggregate: Id, createdAt: Time)

  /** `outbox.NewEvent` truncates the creation time. */
  function NewEvent(kind: EventKind, aggregate: Id, createdAt: Reading): OutboxEvent {
    OutboxEvent(0, kind, aggregate, Micros(createdAt))
  }

  predicate EventsMatch(events: seq<OutboxEvent>, kind: EventKind, aggregate: Id, at: Time) {
    && events != []
    && forall i :: 0 <= i < |events| ==> events[i] == OutboxEvent(0, kind, aggregate, at)
  }

  datatype ResultCode = Accepted | NoopTerminal

  datatype ActionKey = ActionKey(session: Id, actor: Id, actionId: Id) {
    predicate Valid() { session != NIL && actor != NIL && actionId != NIL }
  }

  datatype TimerKey = TimerKey(session: Id, timerId: string, expectedVersion: nat) {
    predicate Valid() { session != NIL && ValidIdentifier(timerId) && expectedVersion > 0 }
  }

  datatype SystemKey = SystemKey(session: Id, operation: Id, source: SystemSource) {
    predicate Valid() { session != NIL && operation != NIL && source.Valid() }
  }

  datatype ActionReceipt = ActionReceipt(key: ActionKey, request: Digest, code: ResultCode, result: Digest,
                                         version: nat, committedAt: Time)
  datatype TimerReceipt = TimerReceipt(key: TimerKey, code: ResultCode, result: Digest, version: nat, committedAt: Time)
  datatype SystemReceipt = SystemReceipt(key: SystemKey, request: Digest, code: ResultCode, result: Digest,
                                         version: nat, committedAt: Time)

  function NewActionReceipt(r: ActionReceipt): Result<ActionReceipt> {
    if !r.key.Valid() || r.version == 0 || r.committedAt == ZERO_TIME then Err(InvalidSessionInput) else Ok(r)
  }

  function NewTimerReceipt(r: TimerReceipt): Result<TimerReceipt> {
    if !r.key.Valid() || r.version == 0 || r.committedAt == ZERO_TIME then Err(InvalidSessionInput) else Ok(r)
  }

  function NewSystemReceipt(r: SystemReceipt): Result<SystemReceipt> {
    if !r.key.Valid() || r.version == 0 || r.committedAt == ZERO_TIME then Err(InvalidSessionInput) else Ok(r)
  }

  datatype ActionCommit = ActionCommit(before: Session, after: Session, batch: Batch, receipt: ActionReceipt,
                                       events: seq<OutboxEvent>)
  datatype TimerCommit = TimerCommit(before: Session, after: Session, batch: Batch, receipt: TimerReceipt,
                                     events: seq<OutboxEvent>)
  datatype SystemCommit = SystemCommit(before: Session, after: Session, batch: Batch, receipt: SystemReceipt,
                                       events: seq<OutboxEvent>)
  datatype LifecycleCommit = LifecycleCommit(before: Session, after: Session, events: seq<OutboxEvent>)

  /** The checks common to action, timer and system commits. */
  predicate RuntimeTransition(before: Session, after: Session, batch: Batch) {
    && before.Identity() == after.Identity() && before.status == Active
    && (after.status == Active || after.status == Finished)
    && before.epoch != 0 && after.epoch == before.epoch && before.Version() != MAX_UINT64
    && after.Version() == before.Version() + 1
    && batch.session == after.id && batch.version == after.Version() && batch.epoch == after.epoch
    && after.updatedAt == batch.committedAt && before.updatedAt <= after.updatedAt
  }

  function NewActionCommit(before: Session, after: Session, batch: Batch, receipt: ActionReceipt,
                           events: seq<OutboxEvent>): Result<ActionCommit> {
    if && RuntimeTransition(before, after, batch) && batch.cause.ByAction? && before.HasParticipant(batch.cause.actor)
       && receipt.key == ActionKey(after.id, batch.cause.actor, batch.cause.actionId)
       && receipt.version == after.Version()
       && receipt.committedAt == batch.committedAt
       && EventsMatch(events, SessionTransitionedEvent, after.id, batch.committedAt)
    then Ok(ActionCommit(before, after, batch, receipt, events)) else Err(InvalidActionCommit)
  }

  function NewTimerCommit(before: Session, after: Session, batch: Batch, receipt: TimerReceipt,
                          events: seq<OutboxEvent>): Result<TimerCommit> {
    if && RuntimeTransition(before, after, batch) && batch.cause.ByTimer?
       && receipt.key == TimerKey(after.id, batch.cause.timerId, before.Version()) && receipt.version == after.Version()
       && receipt.committedAt == batch.committedAt
       && (exists i :: 0 <= i < |before.timers| && before.timers[i].id == receipt.key.timerId
                       && before.timers[i].expectedVersion == receipt.key.expectedVersion)
       && EventsMatch(events, SessionTransitionedEvent, after.id, batch.committedAt)
    then Ok(TimerCommit(before, after, batch, receipt, events)) else Err(InvalidTimerCommit)
  }

  function NewSystemCommit(before: Session, after: Session, batch: Batch, receipt: SystemReceipt,
                           events: seq<OutboxEvent>): Result<SystemCommit> {
    if && RuntimeTransition(before, after, batch) && batch.cause.BySystem?
       && receipt.key == SystemKey(after.id, batch.cause.operation, batch.cause.source)
       && receipt.request == batch.cause.digest
       && receipt.version == after.Version() && receipt.committedAt == batch.committedAt
       && EventsMatch(events, SessionTransitionedEvent, after.id, batch.committedAt)
    then Ok(SystemCommit(before, after, batch, receipt, events)) else Err(InvalidSystemCommit)
  }

  /** The uniform shift a resume must show: same timers, each due later by exactly the pause. */
  predicate ValidResumeShift(before: Session, after: Session) {
    && before.suspendedAt != ZERO_TIME && before.suspendedAt < after.updatedAt
    && ShiftedBy(before.timers, after.timers, after.updatedAt - before.suspendedAt)
    && (forall i :: 0 <= i < |after.timers| ==> after.timers[i].message.Valid())
    && (if before.deadline == ZERO_TIME || after.deadline == ZERO_TIME
        then before.deadline == ZERO_TIME && after.deadline == ZERO_TIME
        else after.deadline == before.deadline + (after.updatedAt - before.suspendedAt))
  }

  predicate SuspendsCleanly(before: Session, after: Session) {
    && before.status == Active && after.status == Suspended && before.timers == after.timers
    && before.deadline == after.deadline
    && after.endedAt == ZERO_TIME && after.suspendedAt == after.updatedAt && before.state == after.state
  }

  predicate ResumesCleanly(before: Session, after: Session) {
    && before.status == Suspended && after.status == Active && ValidResumeShift(before, after)
    && after.endedAt == ZERO_TIME
    && after.suspendedAt == ZERO_TIME && after.cancelReason == "" && before.state.SameEnvelope(after.state)
    && after.state.state.Valid()
  }

  predicate CancelsCleanly(before: Session, after: Session) {
    && !before.status.Terminal() && after.status == Cancelled && after.timers == [] && after.deadline == ZERO_TIME
    && after.endedAt != ZERO_TIME && after.endedAt == after.updatedAt && after.cancelReason != ""
    && before.state == after.state
  }

  function LifecycleEvent(after: Status): EventKind {
    match after
    case Active => SessionResumedEvent
    case Cancelled => SessionCancelledEvent
    case _ => SessionSuspendedEvent
  }

  function NewLifecycleCommit(before: Session, after: Session, events: seq<OutboxEvent>): Result<LifecycleCommit> {
    if && (SuspendsCleanly(before, after) || ResumesCleanly(before, after) || CancelsCleanly(before, after))
       && before.Identity() == after.Identity() && before.epoch != 0 && before.epoch == after.epoch
       && before.updatedAt < after.updatedAt
       && EventsMatch(events, LifecycleEvent(after.status), after.id, after.updatedAt)
    then Ok(LifecycleCommit(before, after, events)) else Err(InvalidLifecycleCommit)
  }

  // ----- what a constructor admits -----

  lemma LifecycleCommitKeepsVersion(before: Session, after: Session, events: seq<OutboxEvent>)
    requires NewLifecycleCommit(before, after, events).Ok?
    ensures after.Identity() == before.Identity() && after.epoch == before.epoch && before.epoch != 0
    ensures after.Version() == before.Version()
    ensures !before.status.Terminal() && before.updatedAt < after.updatedAt
    ensures (before.status, after.status) in {(Active, Suspended), (Suspended, Active), (Active, Cancelled),
                                              (Suspended, Cancelled)}
  {
  }

  // ----- what the service builds is admitted -----

  lemma ActionStepAdmitted(s: Session, batchId: Id, epoch: nat, actor: Id, actionId: Id, execution: Execution,
                           input: Message,
                           transition: Transition, request: Digest, result: Digest)
    requires s.Valid() && ApplyAction(s, batchId, epoch, actor, actionId, execution, input, transition).Ok?
    ensures var r := ApplyAction(s, batchId, epoch, actor, actionId, execution, input, transition).value;
      var receipt := NewActionReceipt(ActionReceipt(ActionKey(s.id, actor, actionId), request, Accepted, result,
                                                    r.0.Version(), Micros(execution.now)));
      && receipt.Ok?
      && NewActionCommit(s, r.0, r.1, receipt.value, [NewEvent(SessionTransitionedEvent, s.id, execution.now)]).Ok?
  {
    ApplyTransitionAdvances(s, batchId, epoch, ByAction(actor, actionId), execution, input, transition);
  }

  lemma TimerAdvanceAdmitted(s: Session, t: Session, b: Batch, timerId: string, result: Digest)
    requires s.Valid() && Advances(s, t, b) && b.cause == ByTimer(timerId) && s.Version() != MAX_UINT64
    requires FindTimer(s.timers, timerId).Some?
    ensures NewTimerCommit(s, t, b, TimerReceipt(TimerKey(s.id, timerId, s.Version()), Accepted, result, t.Version(),
                                                 b.committedAt),
                           [OutboxEvent(0, SessionTransitionedEvent, s.id, b.committedAt)]).Ok?
  {
    var i :| 0 <= i < |s.timers| && s.timers[i].id == timerId;
    assert AcceptableTimer(s.timers[i], s.Version());
  }

  lemma TimerStepAdmitted(s: Session, batchId: Id, epoch: nat, timerId: string, version: nat, execution: Execution,
                          input: Message,
                          transition: Transition, result: Digest)
    requires s.Valid() && ApplyTimer(s, batchId, epoch, timerId, version, execution, input, transition).Ok?
    ensures var r := ApplyTimer(s, batchId, epoch, timerId, version, execution, input, transition).value;
      var receipt := NewTimerReceipt(TimerReceipt(TimerKey(s.id, timerId, version), Accepted, result, r.0.Version(),
                                                  Micros(execution.now)));
      && receipt.Ok?
      && NewTimerCommit(s, r.0, r.1, receipt.value, [NewEvent(SessionTransitionedEvent, s.id, execution.now)]).Ok?
  {
    ApplyTransitionAdvances(s, batchId, epoch, ByTimer(timerId), execution, input, transition);
    var r := ApplyTimer(s, batchId, epoch, timerId, version, execution, input, transition).value;
    TimerAdvanceAdmitted(s, r.0, r.1, timerId, result);
  }

  lemma SystemStepAdmitted(s: Session, batchId: Id, epoch: nat, version: nat, operation: Id, source: SystemSource,
                           request: Digest,
                           execution: Execution, input: Message, transition: Transition, result: Digest)
    requires s.Valid()
    requires ApplySystem(s, batchId, epoch, version, operation, source, request, execution, input, transition).Ok?
    ensures var r := ApplySystem(s, batchId, epoch, version, operation, source, request, execution, input,
                                 transition).value;
      var receipt := NewSystemReceipt(SystemReceipt(SystemKey(s.id, operation, source), request, Accepted, result,
                                                    r.0.Version(), Micros(execution.now)));
      && receipt.Ok?
      && NewSystemCommit(s, r.0, r.1, receipt.value, [NewEvent(SessionTransitionedEvent, s.id, execution.now)]).Ok?
  {
    ApplyTransitionAdvances(s, batchId, epoch, BySystem(operation, source, request), execution, input, transition);
  }

  lemma SuspendAdmitted(s: Session, epoch: nat, at: Reading)
    requires s.Valid() && Suspend(s, epoch, at).Ok?
    ensures NewLifecycleCommit(s, Suspend(s, epoch, at).value, [NewEvent(SessionSuspendedEvent, s.id, at)]).Ok?
  {
    SuspendShape(s, epoch, at);
  }

  lemma CancelAdmitted(s: Session, epoch: nat, at: Reading, reason: string)
    requires s.Valid() && Cancel(s, epoch, at, reason).Ok?
    ensures NewLifecycleCommit(s, Cancel(s, epoch, at, reason).value, [NewEvent(SessionCancelledEvent, s.id, at)]).Ok?
  {
    CancelShape(s, epoch, at, reason);
  }

  /** A resumed session is admitted exactly when every timer moved by the length of the pause. */
  lemma ShiftAdmitted(s: Session, t: Session, at: Time)
    requires s.Valid() && t.Valid() && s.status == Suspended && s.epoch != 0 && s.updatedAt < at
    requires s.state.SameEnvelope(t.state)
    requires t ==
      s.(state := t.state, status := Active, updatedAt := at, suspendedAt := ZERO_TIME, timers := t.timers,
         deadline := t.deadline)
    ensures NewLifecycleCommit(s, t, [OutboxEvent(0, SessionResumedEvent, s.id, at)]).Ok? <==>
      ShiftedBy(s.timers, t.timers, at - s.suspendedAt)
  {
    if ShiftedBy(s.timers, t.timers, at - s.suspendedAt) {
      if s.timers != [] {
        EarliestDueIsMinimum(s.timers);
        EarliestDueIsMinimum(t.timers);
        EarliestDueShifts(s.timers, t.timers, at - s.suspendedAt);
      }
      assert ValidResumeShift(s, t);
    }
  }

  /** Without an adjuster every resume is admitted. */
  lemma PlainResumeAdmitted(s: Session, epoch: nat, at: Reading)
    requires s.Valid() && s.status == Suspended && Resume(s, epoch, at, NoAdjuster).Ok?
    ensures NewLifecycleCommit(s, Resume(s, epoch, at, NoAdjuster).value, [NewEvent(SessionResumedEvent, s.id, at)]).Ok?
  {
    PlainResumeExact(s, epoch, at);
    ShiftedSessionValid(s, Micros(at));
    ShiftAdmitted(s, ShiftedSession(s, Micros(at)), Micros(at));
  }

  /**
   * A module-adjusted resume is admitted exactly when it shifts every timer by the pause and keeps the message
   * envelopes.
   */
  lemma AdjustedResumeAdmitted(s: Session, epoch: nat, at: Reading, adjustment: Adjustment)
    requires s.Valid() && Resume(s, epoch, at, adjustment).Ok?
    ensures var t := Resume(s, epoch, at, adjustment).value;
      NewLifecycleCommit(s, t, [NewEvent(SessionResumedEvent, s.id, at)]).Ok? <==>
        ShiftedBy(s.timers, t.timers, Micros(at) - s.suspendedAt)
  {
    ResumeShape(s, epoch, at, adjustment);
    ShiftAdmitted(s, Resume(s, epoch, at, adjustment).value, Micros(at));
  }
}
